/** What `load` does to the container, stated as functions from one container
    snapshot to the next: adapters first, then caches, then filesystems, then the
    stream wrappers. The extension's methods are proved to follow these functions;
    the lemmas here state what the resulting definitions and aliases are. */
module Resolution {
  import opened Wrappers
  import opened DependencyInjection
  import opened Ids
  import opened Registry

  /** A configuration section: name => value, in configuration order. */
  type Entries<T> = seq<(string, T)>

  /** An adapter or cache entry: kind key => options, in configuration order. */
  type KindConfig = seq<(string, Param)>

  /** A `stream_wrapper` block; `configuration` is None when the key is absent. */
  datatype StreamWrapper = StreamWrapper(protocol: string, configuration: Option<Param>)

  /** A processed `filesystems` entry. For `cache`, `mount`, `alias`, `plugins` and
      `streamWrapper`, None stands for an absent key or a null value. `visibility` and
      `disableAsserts` are tested by key presence: None is an absent key, and a key
      present with a null value is Some(Null). */
  datatype FilesystemConfig = FilesystemConfig(
    adapter: string,
    cache: Option<string>,
    mount: Option<string>,
    alias: Option<string>,
    visibility: Option<Param>,
    disableAsserts: Option<Param>,
    plugins: Option<seq<string>>,
    streamWrapper: Option<StreamWrapper>)

  datatype BundleConfig = BundleConfig(
    adapters: Entries<KindConfig>,
    caches: Entries<KindConfig>,
    filesystems: Entries<FilesystemConfig>)

  /** What the extension asks of its environment: whether ContainerBuilder has
      registerAliasForArgument, and whether the stream-wrapper library is installed. */
  datatype Environment = Environment(argumentAliases: bool, streamWrapperInstalled: bool)

  datatype LoadError =
    | NotConfigured(kind: ServiceKind, name: string)   // LogicException
    | AdapterNotDefined(adapter: string)               // LogicException
    | StreamWrapperNotInstalled                        // InvalidConfigurationException
    | NameNotString(callee: string, name: string)      // TypeError: an int key passed as `string $name`

  function Message(e: LoadError): string {
    match e
    case NotConfigured(AdapterKind, name) => "The adapter '" + name + "' is not configured."
    case NotConfigured(CacheKind, name) => "The cache '" + name + "' is not configured."
    case AdapterNotDefined(adapter) => "The adapter '" + adapter + "' is not defined."
    case StreamWrapperNotInstalled =>
      "twistor/flysystem-stream-wrapper" + " must be installed to use the stream wrapper feature."
    case NameNotString(callee, _) =>
      "Oneup\\FlysystemBundle\\DependencyInjection\\OneupFlysystemExtension::" + callee
      + "(): Argument #1 ($name) must be of type string, int given"
  }

  lemma FramedInjective(p: string, a: string, b: string, q: string)
    requires p + a + q == p + b + q
    ensures a == b
  {
    assert |a| == |b|;
    assert a == (p + a + q)[|p|..|p| + |a|];
    assert b == (p + b + q)[|p|..|p| + |b|];
  }

  /** The characters that tell the messages apart: the first, the fifth ("The [a]dapter"
      or "The [c]ache") and the fourth from the end ("configu[r]ed." or "defi[n]ed."). */
  lemma MessageMarks(e: LoadError)
    requires !e.NameNotString?
    ensures var m := Message(e);
            && |m| >= 5
            && (m[0] == 'T' <==> !e.StreamWrapperNotInstalled?)
            && (e.NotConfigured? ==> m[4] == (if e.kind == AdapterKind then 'a' else 'c') && m[|m| - 4] == 'r')
            && (e.AdapterNotDefined? ==> m[4] == 'a' && m[|m| - 4] == 'n')
  {
    var m := Message(e);
    match e {
      case NotConfigured(k, n) =>
        var p := if k == AdapterKind then "The adapter '" else "The cache '";
        var q := "' is not configured.";
        assert m == p + n + q;
        assert m[0] == p[0] && m[4] == p[4];
        assert m[|m| - 4] == q[|q| - 4];
      case AdapterNotDefined(n) =>
        var p, q := "The adapter '", "' is not defined.";
        assert m == p + n + q;
        assert m[0] == p[0] && m[4] == p[4];
        assert m[|m| - 4] == q[|q| - 4];
      case StreamWrapperNotInstalled =>
        var library := "twistor/flysystem-stream-wrapper";
        assert m == library + " must be installed to use the stream wrapper feature.";
        assert m[0] == library[0] == 't';
    }
  }

  /** The messages of the two LogicExceptions and of the missing-library error tell
      the errors apart: equal messages mean the same error, the same kind of service
      and the same quoted name. */
  lemma MessageIdentifiesError(e1: LoadError, e2: LoadError)
    requires !e1.NameNotString? && !e2.NameNotString?
    requires Message(e1) == Message(e2)
    ensures e1 == e2
  {
    MessageMarks(e1);
    MessageMarks(e2);
    if e1.NotConfigured? && e2.NotConfigured? {
      var p := if e1.kind == AdapterKind then "The adapter '" else "The cache '";
      FramedInjective(p, e1.name, e2.name, "' is not configured.");
    } else if e1.AdapterNotDefined? && e2.AdapterNotDefined? {
      FramedInjective("The adapter '", e1.adapter, e2.adapter, "' is not defined.");
    }
  }

  predicate IsDigit(c: char) {
    '0' <= c <= '9'
  }

  /** Every character is a decimal digit. */
  predicate AllDigits(s: string)
    decreases |s|
  {
    s == [] || (IsDigit(s[|s| - 1]) && AllDigits(s[..|s| - 1]))
  }

  /** The value of a string of decimal digits. */
  function DecimalValue(s: string): nat
    requires AllDigits(s)
    decreases |s|
  {
    if s == [] then 0 else DecimalValue(s[..|s| - 1]) * 10 + (s[|s| - 1] as int - '0' as int)
  }

  /** Decimal digits without a leading zero, or "0" itself. */
  predicate CanonicalDigits(s: string) {
    |s| > 0 && AllDigits(s) && (s[0] == '0' ==> |s| == 1)
  }

  /** PHP stores an array key that is a canonical decimal integer within the 64-bit
      range as an int: "1" and "-7" become ints, while "01", "-0", "1.0" and " 1" stay
      strings. Such a configuration name reaches the extension's loops as an int. */
  predicate IsIntegerKey(s: string) {
    if |s| > 0 && s[0] == '-' then
      CanonicalDigits(s[1..]) && s[1] != '0' && DecimalValue(s[1..]) <= 0x8000_0000_0000_0000
    else
      CanonicalDigits(s) && DecimalValue(s) <= 0x7FFF_FFFF_FFFF_FFFF
  }

  /** Names that PHP keeps as strings, and names it turns into ints. */
  lemma IntegerKeyExamples()
    ensures IsIntegerKey("0") && IsIntegerKey("1") && IsIntegerKey("42") && IsIntegerKey("-7")
    ensures !IsIntegerKey("") && !IsIntegerKey("01") && !IsIntegerKey("-0") && !IsIntegerKey("-")
    ensures !IsIntegerKey("acme") && !IsIntegerKey("1a") && !IsIntegerKey("+1")
  {
    assert DecimalValue("42") == 42 by { assert "42"[..1] == "4"; assert "4"[..0] == ""; }
    assert "-7"[1..] == "7";
    assert DecimalValue("7") == 7 by { assert "7"[..0] == ""; }
    assert "1a"[1] == 'a';
  }

  /** The name of the PHP method that creates a service of this kind. */
  function CreateMethod(kind: ServiceKind): string {
    match kind
    case AdapterKind => "createAdapter"
    case CacheKind => "createCache"
  }

  /** A PHP array has each key once. */
  predicate UniqueNames<T>(entries: Entries<T>) {
    forall i, j | 0 <= i < j < |entries| :: entries[i].0 != entries[j].0
  }

  function Names<T>(entries: Entries<T>): set<string> {
    set i | 0 <= i < |entries| :: entries[i].0
  }

  /** PHP truthiness of an optional string: null, "" and "0" are false. */
  predicate Truthy(v: Option<string>) {
    v.Some? && v.value != "" && v.value != "0"
  }

  /** A null cache name used as an array key is the key "". */
  function CacheKey(cache: Option<string>): string {
    cache.GetOr("")
  }

  // ---------------------------------------------------------------- adapters and caches

  /** The position of the first kind key of `config` that has a factory. */
  function FirstFactoryKey(config: KindConfig, factories: map<string, Factory>): (r: Option<nat>)
    ensures r.Some? ==> r.value < |config| && config[r.value].0 in factories
    ensures forall j | 0 <= j < (if r.Some? then r.value else |config|) :: config[j].0 !in factories
    decreases |config|
  {
    if config == [] then None
    else if config[0].0 in factories then Some(0)
    else
      match FirstFactoryKey(config[1..], factories)
      case None => None
      case Some(i) => Some(i + 1)
  }

  /** What FactoryInterface::create adds under the given id; the factories' own
      bodies are not part of this model. */
  function FactoryDefinition(factory: Factory, options: Param): Definition {
    Definition(factory.service, map[0 := Value(options)], [], None, [])
  }

  /** createAdapter / createCache: a name PHP holds as an int is refused by the
      `string $name` parameter under strict_types; otherwise the first kind key with a
      factory decides. */
  function DefineService(kind: ServiceKind, name: string, config: KindConfig, factories: map<string, Factory>, s: Services)
    : Result<(string, Services), LoadError>
  {
    if IsIntegerKey(name) then Err(NameNotString(CreateMethod(kind), name))
    else match FirstFactoryKey(config, factories)
    case None => Err(NotConfigured(kind, name))
    case Some(i) =>
      var id := ServiceId(kind, name);
      Ok((id, s.(definitions := s.definitions[id := FactoryDefinition(factories[config[i].0], config[i].1)])))
  }

  /** The loop of `load` over the adapters (or caches), from `ids` and `s` on. */
  function ResolveServices(kind: ServiceKind, entries: Entries<KindConfig>, factories: map<string, Factory>,
                           ids: map<string, string>, s: Services): Result<(map<string, string>, Services), LoadError>
    decreases |entries|
  {
    if entries == [] then Ok((ids, s))
    else
      var r :- DefineService(kind, entries[0].0, entries[0].1, factories, s);
      ResolveServices(kind, entries[1..], factories, ids[entries[0].0 := r.0], r.1)
  }

  function ServiceIds(kind: ServiceKind, entries: Entries<KindConfig>): set<string> {
    set i | 0 <= i < |entries| :: ServiceId(kind, entries[i].0)
  }

  lemma NamesSplit<T>(entries: Entries<T>)
    requires entries != []
    ensures Names(entries) == {entries[0].0} + Names(entries[1..])
  {
    forall n | n in Names(entries) ensures n in {entries[0].0} + Names(entries[1..]) {
      var i :| 0 <= i < |entries| && entries[i].0 == n;
      if i > 0 { assert entries[1..][i - 1].0 == n; }
    }
  }

  lemma ServiceIdsSplit(kind: ServiceKind, entries: Entries<KindConfig>)
    requires entries != []
    ensures ServiceIds(kind, entries) == {ServiceId(kind, entries[0].0)} + ServiceIds(kind, entries[1..])
  {
    var rest := entries[1..];
    forall x | x in ServiceIds(kind, entries) ensures x in {ServiceId(kind, entries[0].0)} + ServiceIds(kind, rest) {
      var i :| 0 <= i < |entries| && x == ServiceId(kind, entries[i].0);
      if i > 0 { assert entries[i] == rest[i - 1]; }
    }
    forall x | x in ServiceIds(kind, rest) ensures x in ServiceIds(kind, entries) {
      var i :| 0 <= i < |rest| && x == ServiceId(kind, rest[i].0);
      assert rest[i] == entries[i + 1];
    }
  }

  /** One entry's outcome: its id; a TypeError when its name is an int key; or
      NotConfigured when none of its keys has a factory. */
  lemma DefineServiceOutcome(kind: ServiceKind, name: string, config: KindConfig, factories: map<string, Factory>, s: Services)
    ensures DefineService(kind, name, config, factories, s).Err? <==>
            IsIntegerKey(name) || forall j | 0 <= j < |config| :: config[j].0 !in factories
    ensures DefineService(kind, name, config, factories, s).Err? ==>
            DefineService(kind, name, config, factories, s).error ==
            if IsIntegerKey(name) then NameNotString(CreateMethod(kind), name) else NotConfigured(kind, name)
    ensures DefineService(kind, name, config, factories, s).Ok? ==>
            var (id, s') := DefineService(kind, name, config, factories, s).value;
            var i := FirstFactoryKey(config, factories).value;
            && id == ServiceId(kind, name)
            && s'.aliases == s.aliases
            && s'.definitions == s.definitions[id := FactoryDefinition(factories[config[i].0], config[i].1)]
  {
  }

  /** The map of `load` holds every resolved name, under its deterministic id. */
  lemma {:induction false} ResolveServicesIds(kind: ServiceKind, entries: Entries<KindConfig>, factories: map<string, Factory>,
                                              ids: map<string, string>, s: Services)
    requires ResolveServices(kind, entries, factories, ids, s).Ok?
    ensures var ids' := ResolveServices(kind, entries, factories, ids, s).value.0;
            && ids'.Keys == ids.Keys + Names(entries)
            && (forall n | n in Names(entries) :: ids'[n] == ServiceId(kind, n))
            && (forall n | n in ids && n !in Names(entries) :: ids'[n] == ids[n])
    decreases |entries|
  {
    if entries != [] {
      var r := DefineService(kind, entries[0].0, entries[0].1, factories, s).value;
      ResolveServicesIds(kind, entries[1..], factories, ids[entries[0].0 := r.0], r.1);
      NamesSplit(entries);
    }
  }

  /** The pass succeeds exactly when every entry has a string name and a factory for
      one of its keys. */
  lemma {:induction false} ResolveServicesSucceeds(kind: ServiceKind, entries: Entries<KindConfig>, factories: map<string, Factory>,
                                                   ids: map<string, string>, s: Services)
    ensures ResolveServices(kind, entries, factories, ids, s).Ok? <==>
            forall i | 0 <= i < |entries| :: ServiceAccepted(entries[i].0, entries[i].1, factories)
    decreases |entries|
  {
    if entries != [] {
      var d := DefineService(kind, entries[0].0, entries[0].1, factories, s);
      if d.Ok? {
        var rest := entries[1..];
        ResolveServicesSucceeds(kind, rest, factories, ids[entries[0].0 := d.value.0], d.value.1);
        if ResolveServices(kind, entries, factories, ids, s).Ok? {
          forall i | 0 <= i < |entries| ensures ServiceAccepted(entries[i].0, entries[i].1, factories) {
            if i > 0 { assert entries[i] == rest[i - 1]; }
          }
        } else {
          assert exists i | 0 <= i < |rest| :: !ServiceAccepted(rest[i].0, rest[i].1, factories);
          var i :| 0 <= i < |rest| && !ServiceAccepted(rest[i].0, rest[i].1, factories);
          assert entries[i + 1] == rest[i];
        }
      }
    }
  }

  /** An entry createAdapter / createCache accepts: a string name, and a factory for one
      of its keys. */
  predicate ServiceAccepted(name: string, config: KindConfig, factories: map<string, Factory>) {
    !IsIntegerKey(name) && FirstFactoryKey(config, factories).Some?
  }

  /** The error of an entry that is not accepted. */
  function ServiceRejection(kind: ServiceKind, name: string): LoadError {
    if IsIntegerKey(name) then NameNotString(CreateMethod(kind), name) else NotConfigured(kind, name)
  }

  /** The position of the first entry that createAdapter / createCache does not accept. */
  function FirstRejectedService(entries: Entries<KindConfig>, factories: map<string, Factory>): (r: Option<nat>)
    ensures r.Some? ==> r.value < |entries| && !ServiceAccepted(entries[r.value].0, entries[r.value].1, factories)
    ensures forall j | 0 <= j < (if r.Some? then r.value else |entries|) ::
              ServiceAccepted(entries[j].0, entries[j].1, factories)
    decreases |entries|
  {
    if entries == [] then None
    else if !ServiceAccepted(entries[0].0, entries[0].1, factories) then Some(0)
    else
      match FirstRejectedService(entries[1..], factories)
      case None => None
      case Some(i) => Some(i + 1)
  }

  /** A failing pass fails with the error of the first entry that is not accepted: a
      TypeError for an int name, NotConfigured for an entry with no factory. */
  lemma {:induction false} ResolveServicesFirstError(kind: ServiceKind, entries: Entries<KindConfig>, factories: map<string, Factory>,
                                                     ids: map<string, string>, s: Services)
    requires ResolveServices(kind, entries, factories, ids, s).Err?
    ensures var r := FirstRejectedService(entries, factories);
            && r.Some?
            && ResolveServices(kind, entries, factories, ids, s).error == ServiceRejection(kind, entries[r.value].0)
    decreases |entries|
  {
    var d := DefineService(kind, entries[0].0, entries[0].1, factories, s);
    if d.Ok? {
      var rest := entries[1..];
      ResolveServicesFirstError(kind, rest, factories, ids[entries[0].0 := d.value.0], d.value.1);
      var i := FirstRejectedService(rest, factories).value;
      assert entries[i + 1] == rest[i];
    }
  }

  /** The adapter (or cache) pass writes the entries' ids and nothing else: every other
      definition and every alias stays as it was. */
  lemma {:induction false} ResolveServicesFrame(kind: ServiceKind, entries: Entries<KindConfig>, factories: map<string, Factory>,
                                                ids: map<string, string>, s: Services)
    requires ResolveServices(kind, entries, factories, ids, s).Ok?
    ensures var s' := ResolveServices(kind, entries, factories, ids, s).value.1;
            && s'.aliases == s.aliases
            && s'.definitions.Keys == s.definitions.Keys + ServiceIds(kind, entries)
            && (forall id | id in s.definitions && id !in ServiceIds(kind, entries) :: s'.definitions[id] == s.definitions[id])
    decreases |entries|
  {
    if entries != [] {
      var rest := entries[1..];
      var r := DefineService(kind, entries[0].0, entries[0].1, factories, s).value;
      ResolveServicesFrame(kind, rest, factories, ids[entries[0].0 := r.0], r.1);
      ServiceIdsSplit(kind, entries);
    }
  }

  /** With distinct names, entry i's id holds the definition its first matching factory created. */
  lemma {:induction false} ResolveServicesDefinitionAt(kind: ServiceKind, entries: Entries<KindConfig>, factories: map<string, Factory>,
                                                       ids: map<string, string>, s: Services, i: nat)
    requires UniqueNames(entries) && i < |entries|
    requires ResolveServices(kind, entries, factories, ids, s).Ok?
    ensures var s' := ResolveServices(kind, entries, factories, ids, s).value.1;
            var k := FirstFactoryKey(entries[i].1, factories);
            && k.Some?
            && ServiceId(kind, entries[i].0) in s'.definitions
            && s'.definitions[ServiceId(kind, entries[i].0)] ==
               FactoryDefinition(factories[entries[i].1[k.value].0], entries[i].1[k.value].1)
    decreases |entries|
  {
    var rest := entries[1..];
    var r := DefineService(kind, entries[0].0, entries[0].1, factories, s).value;
    var ids' := ids[entries[0].0 := r.0];
    if i == 0 {
      ResolveServicesFrame(kind, rest, factories, ids', r.1);
      forall j | 0 <= j < |rest| ensures ServiceId(kind, rest[j].0) != ServiceId(kind, entries[0].0) {
        assert rest[j] == entries[j + 1];
        if ServiceId(kind, rest[j].0) == ServiceId(kind, entries[0].0) {
          ServiceIdInjective(kind, entries[0].0, rest[j].0);
        }
      }
    } else {
      assert UniqueNames(rest) by {
        forall a, b | 0 <= a < b < |rest| ensures rest[a].0 != rest[b].0 {
          assert rest[a] == entries[a + 1] && rest[b] == entries[b + 1];
        }
      }
      ResolveServicesDefinitionAt(kind, rest, factories, ids', r.1, i - 1);
      assert rest[i - 1] == entries[i];
    }
  }

  // ---------------------------------------------------------------- filesystems

  /** `!empty($config['alias'])`. */
  predicate HasAlias(fs: FilesystemConfig) {
    Truthy(fs.alias)
  }

  /** The tag attributes: always `key`, and `mount` only for a truthy mount value. */
  function TagAttributes(name: string, mount: Option<string>): map<string, string> {
    if Truthy(mount) then map["key" := name, "mount" := mount.value] else map["key" := name]
  }

  /** The options array: `visibility` and `disable_asserts`, each only when its key is present. */
  function FilesystemOptions(fs: FilesystemConfig): map<string, Param> {
    var withVisibility := if fs.visibility.Some? then map["visibility" := fs.visibility.value] else map[];
    if fs.disableAsserts.Some? then withVisibility["disable_asserts" := fs.disableAsserts.value] else withVisibility
  }

  function AddPlugin(plugin: string): MethodCall {
    MethodCall("addPlugin", [Ref(plugin)])
  }

  /** One `addPlugin` call per listed plugin, in the listed order. */
  function PluginCalls(plugins: Option<seq<string>>): seq<MethodCall> {
    match plugins
    case None => []
    case Some(ps) => seq(|ps|, k requires 0 <= k < |ps| => AddPlugin(ps[k]))
  }

  /** The cache decorator: a child of the cached-adapter definition over (adapter, cache). */
  function DecoratorDefinition(adapterId: string, cacheId: string): Definition {
    Definition(CachedAdapterTemplate, map[0 := Ref(adapterId), 1 := Ref(cacheId)], [], None, [])
  }

  /** The filesystem definition over `backend`, the adapter or its decorator. */
  function FilesystemDefinition(name: string, fs: FilesystemConfig, backend: string): Definition {
    Definition(
      FilesystemTemplate,
      map[0 := Ref(backend), 1 := Options(FilesystemOptions(fs))],
      [Tag(FilesystemTag, TagAttributes(name, fs.mount))],
      Some(!HasAlias(fs)),
      PluginCalls(fs.plugins))
  }

  /** Insert-or-get an alias, then make it public: an alias already of that name keeps its target. */
  function InsertOrGetPublic(aliases: map<string, Alias>, name: string, target: string): map<string, Alias> {
    aliases[name := if name in aliases then aliases[name].(public := true) else Alias(target, true)]
  }

  /** createFilesystem: a name PHP holds as an int is refused by the `string $name`
      parameter under strict_types, before the adapter is looked up. */
  function DefineFilesystem(name: string, fs: FilesystemConfig, adapters: map<string, string>, caches: map<string, string>,
                            argumentAliases: bool, s: Services): Result<Services, LoadError>
  {
    if IsIntegerKey(name) then Err(NameNotString("createFilesystem", name))
    else if fs.adapter !in adapters then Err(AdapterNotDefined(fs.adapter))
    else
      var adapterId := adapters[fs.adapter];
      var id := FilesystemId(name);
      var cached := CacheKey(fs.cache) in caches;
      var definitions :=
        if cached then s.definitions[DecoratorId(adapterId) := DecoratorDefinition(adapterId, caches[CacheKey(fs.cache)])]
        else s.definitions;
      var backend := if cached then DecoratorId(adapterId) else adapterId;
      var aliases := if HasAlias(fs) then InsertOrGetPublic(s.aliases, fs.alias.value, id) else s.aliases;
      Ok(Services(
        definitions[id := FilesystemDefinition(name, fs, backend)],
        if argumentAliases then aliases[ArgumentAliasKey(FilesystemInterface, ArgumentAliasName(name)) := Alias(id, false)]
        else aliases))
  }

  /** The loop of `load` over the filesystems, from `refs` and `s` on. */
  function ResolveFilesystems(entries: Entries<FilesystemConfig>, adapters: map<string, string>, caches: map<string, string>,
                              argumentAliases: bool, refs: map<string, string>, s: Services)
    : Result<(map<string, string>, Services), LoadError>
    decreases |entries|
  {
    if entries == [] then Ok((refs, s))
    else
      var s' :- DefineFilesystem(entries[0].0, entries[0].1, adapters, caches, argumentAliases, s);
      ResolveFilesystems(entries[1..], adapters, caches, argumentAliases, refs[entries[0].0 := FilesystemId(entries[0].0)], s')
  }

  /** A filesystem fails exactly when its name is an int key (a TypeError) or its
      adapter name is not a resolved adapter (AdapterNotDefined). */
  lemma DefineFilesystemFails(name: string, fs: FilesystemConfig, adapters: map<string, string>, caches: map<string, string>,
                              argumentAliases: bool, s: Services)
    ensures DefineFilesystem(name, fs, adapters, caches, argumentAliases, s).Err? <==>
            IsIntegerKey(name) || fs.adapter !in adapters
    ensures DefineFilesystem(name, fs, adapters, caches, argumentAliases, s).Err? ==>
            DefineFilesystem(name, fs, adapters, caches, argumentAliases, s).error ==
            if IsIntegerKey(name) then NameNotString("createFilesystem", name) else AdapterNotDefined(fs.adapter)
  {
  }

  /** The filesystem definition: a child of `oneup_flysystem.filesystem`, tagged with
      its name (and its mount point when that is truthy), with exactly the options
      present in the configuration, public unless aliased, and one addPlugin call per
      plugin in the listed order. */
  lemma FilesystemDefinitionShape(name: string, fs: FilesystemConfig, adapters: map<string, string>, caches: map<string, string>,
                                  argumentAliases: bool, s: Services)
    requires DefineFilesystem(name, fs, adapters, caches, argumentAliases, s).Ok?
    ensures var s' := DefineFilesystem(name, fs, adapters, caches, argumentAliases, s).value;
            var d := s'.definitions[FilesystemId(name)];
            && d.template == FilesystemTemplate
            && d.args.Keys == {0, 1}
            && d.args[1].Options?
            && d.args[1].options.Keys ==
               (if fs.visibility.Some? then {"visibility"} else {}) + (if fs.disableAsserts.Some? then {"disable_asserts"} else {})
            && (fs.visibility.Some? ==> d.args[1].options["visibility"] == fs.visibility.value)
            && (fs.disableAsserts.Some? ==> d.args[1].options["disable_asserts"] == fs.disableAsserts.value)
            && |d.tags| == 1 && d.tags[0].name == FilesystemTag
            && "key" in d.tags[0].attributes && d.tags[0].attributes["key"] == name
            && ("mount" in d.tags[0].attributes <==> Truthy(fs.mount))
            && ("mount" in d.tags[0].attributes ==> d.tags[0].attributes["mount"] == fs.mount.value)
            && d.tags[0].attributes.Keys <= {"key", "mount"}
            && d.public == Some(!HasAlias(fs))
            && |d.calls| == (if fs.plugins.Some? then |fs.plugins.value| else 0)
            && (forall k | 0 <= k < |d.calls| :: d.calls[k] == MethodCall("addPlugin", [Ref(fs.plugins.value[k])]))
  {
  }

  /** Cache decoration: a resolved cache name puts `<adapterId>_cached` over (adapter, cache)
      and the filesystem reads from it; any other cache name, null included, is ignored
      and the filesystem reads from the adapter, leaving the decorator id as it was. */
  lemma CacheDecoration(name: string, fs: FilesystemConfig, adapters: map<string, string>, caches: map<string, string>,
                        argumentAliases: bool, s: Services)
    requires DefineFilesystem(name, fs, adapters, caches, argumentAliases, s).Ok?
    ensures var s' := DefineFilesystem(name, fs, adapters, caches, argumentAliases, s).value;
            var adapterId := adapters[fs.adapter];
            var decorator := DecoratorId(adapterId);
            if CacheKey(fs.cache) in caches then
              && decorator in s'.definitions
              && s'.definitions[decorator] == DecoratorDefinition(adapterId, caches[CacheKey(fs.cache)])
              && s'.definitions[FilesystemId(name)].args[0] == Ref(decorator)
            else
              && s'.definitions[FilesystemId(name)].args[0] == Ref(adapterId)
              && (decorator in s'.definitions <==> decorator in s.definitions)
              && (decorator in s.definitions ==> s'.definitions[decorator] == s.definitions[decorator])
  {
    DecoratorIsNotFilesystem(adapters[fs.adapter], name);
  }

  /** A filesystem writes its own id, its adapter's decorator when a cache resolves, its
      alias and its argument alias; every other definition and alias stays as it was. */
  lemma DefineFilesystemFrame(name: string, fs: FilesystemConfig, adapters: map<string, string>, caches: map<string, string>,
                              argumentAliases: bool, s: Services)
    requires DefineFilesystem(name, fs, adapters, caches, argumentAliases, s).Ok?
    ensures var s' := DefineFilesystem(name, fs, adapters, caches, argumentAliases, s).value;
            var decorator := DecoratorId(adapters[fs.adapter]);
            var argumentAlias := ArgumentAliasKey(FilesystemInterface, ArgumentAliasName(name));
            && s'.definitions.Keys ==
               s.definitions.Keys + {FilesystemId(name)} + (if CacheKey(fs.cache) in caches then {decorator} else {})
            && (forall id | id in s.definitions && id != FilesystemId(name) && id != decorator ::
                  s'.definitions[id] == s.definitions[id])
            && (forall a | a in s.aliases && !(HasAlias(fs) && a == fs.alias.value) && !(argumentAliases && a == argumentAlias) ::
                  a in s'.aliases && s'.aliases[a] == s.aliases[a])
            && (forall a | a in s'.aliases && a !in s.aliases :: (HasAlias(fs) && a == fs.alias.value) || (argumentAliases && a == argumentAlias))
  {
  }

  /** Aliases: a truthy alias name ends up public and points at the filesystem, unless an
      alias of that name already existed, which is reused with its own target; with
      argument aliases supported, the suffixed name is a private alias of the filesystem. */
  lemma FilesystemAliases(name: string, fs: FilesystemConfig, adapters: map<string, string>, caches: map<string, string>,
                          argumentAliases: bool, s: Services)
    requires DefineFilesystem(name, fs, adapters, caches, argumentAliases, s).Ok?
    ensures var s' := DefineFilesystem(name, fs, adapters, caches, argumentAliases, s).value;
            var argumentAlias := ArgumentAliasKey(FilesystemInterface, ArgumentAliasName(name));
            && (HasAlias(fs) && !(argumentAliases && fs.alias.value == argumentAlias) ==>
                  && fs.alias.value in s'.aliases
                  && s'.aliases[fs.alias.value].public
                  && s'.aliases[fs.alias.value].target ==
                     (if fs.alias.value in s.aliases then s.aliases[fs.alias.value].target else FilesystemId(name)))
            && (argumentAliases ==> argumentAlias in s'.aliases && s'.aliases[argumentAlias] == Alias(FilesystemId(name), false))
            && (!HasAlias(fs) && !argumentAliases ==> s'.aliases == s.aliases)
  {
  }

  /** Two filesystems on the same adapter, both with a resolving cache, share ONE
      decorator: the second overwrites it with its own cache, and the first filesystem
      then reads through the second one's cache. */
  lemma SharedDecorator(name1: string, fs1: FilesystemConfig, name2: string, fs2: FilesystemConfig,
                        adapters: map<string, string>, caches: map<string, string>, argumentAliases: bool, s: Services)
    requires name1 != name2 && fs1.adapter == fs2.adapter
    requires CacheKey(fs1.cache) in caches && CacheKey(fs2.cache) in caches
    requires DefineFilesystem(name1, fs1, adapters, caches, argumentAliases, s).Ok?
    requires DefineFilesystem(name2, fs2, adapters, caches, argumentAliases,
                              DefineFilesystem(name1, fs1, adapters, caches, argumentAliases, s).value).Ok?
    ensures var s'' := DefineFilesystem(name2, fs2, adapters, caches, argumentAliases,
                                        DefineFilesystem(name1, fs1, adapters, caches, argumentAliases, s).value).value;
            var decorator := DecoratorId(adapters[fs1.adapter]);
            && s''.definitions[FilesystemId(name1)].args[0] == Ref(decorator)
            && s''.definitions[FilesystemId(name2)].args[0] == Ref(decorator)
            && s''.definitions[decorator].args[1] == Ref(caches[CacheKey(fs2.cache)])
  {
    var s' := DefineFilesystem(name1, fs1, adapters, caches, argumentAliases, s).value;
    var decorator := DecoratorId(adapters[fs1.adapter]);
    CacheDecoration(name1, fs1, adapters, caches, argumentAliases, s);
    CacheDecoration(name2, fs2, adapters, caches, argumentAliases, s');
    DefineFilesystemFrame(name2, fs2, adapters, caches, argumentAliases, s');
    DecoratorIsNotFilesystem(adapters[fs1.adapter], name1);
    if FilesystemId(name1) == FilesystemId(name2) {
      FilesystemIdInjective(name1, name2);
    }
  }

  /** The map of `load` references every filesystem by `oneup_flysystem.<name>_filesystem`. */
  lemma {:induction false} ResolveFilesystemsRefs(entries: Entries<FilesystemConfig>, adapters: map<string, string>,
                                                  caches: map<string, string>, argumentAliases: bool,
                                                  refs: map<string, string>, s: Services)
    requires ResolveFilesystems(entries, adapters, caches, argumentAliases, refs, s).Ok?
    ensures var refs' := ResolveFilesystems(entries, adapters, caches, argumentAliases, refs, s).value.0;
            && refs'.Keys == refs.Keys + Names(entries)
            && (forall n | n in Names(entries) :: refs'[n] == FilesystemId(n))
            && (forall n | n in refs && n !in Names(entries) :: refs'[n] == refs[n])
    decreases |entries|
  {
    if entries != [] {
      var s' := DefineFilesystem(entries[0].0, entries[0].1, adapters, caches, argumentAliases, s).value;
      ResolveFilesystemsRefs(entries[1..], adapters, caches, argumentAliases, refs[entries[0].0 := FilesystemId(entries[0].0)], s');
      NamesSplit(entries);
    }
  }

  /** An entry createFilesystem accepts: a string name, and a resolved adapter. */
  predicate FilesystemAccepted(name: string, fs: FilesystemConfig, adapters: map<string, string>) {
    !IsIntegerKey(name) && fs.adapter in adapters
  }

  /** The error of a filesystem that is not accepted. */
  function FilesystemRejection(name: string, fs: FilesystemConfig): LoadError {
    if IsIntegerKey(name) then NameNotString("createFilesystem", name) else AdapterNotDefined(fs.adapter)
  }

  /** The pass succeeds exactly when every filesystem has a string name and names a
      resolved adapter. */
  lemma {:induction false} ResolveFilesystemsSucceeds(entries: Entries<FilesystemConfig>, adapters: map<string, string>,
                                                      caches: map<string, string>, argumentAliases: bool,
                                                      refs: map<string, string>, s: Services)
    ensures ResolveFilesystems(entries, adapters, caches, argumentAliases, refs, s).Ok? <==>
            forall i | 0 <= i < |entries| :: FilesystemAccepted(entries[i].0, entries[i].1, adapters)
    decreases |entries|
  {
    if entries != [] {
      var d := DefineFilesystem(entries[0].0, entries[0].1, adapters, caches, argumentAliases, s);
      if d.Ok? {
        var rest := entries[1..];
        ResolveFilesystemsSucceeds(rest, adapters, caches, argumentAliases, refs[entries[0].0 := FilesystemId(entries[0].0)], d.value);
        if ResolveFilesystems(entries, adapters, caches, argumentAliases, refs, s).Ok? {
          forall i | 0 <= i < |entries| ensures FilesystemAccepted(entries[i].0, entries[i].1, adapters) {
            if i > 0 { assert entries[i] == rest[i - 1]; }
          }
        } else {
          var i :| 0 <= i < |rest| && !FilesystemAccepted(rest[i].0, rest[i].1, adapters);
          assert entries[i + 1] == rest[i];
        }
      }
    }
  }

  /** The position of the first filesystem that createFilesystem does not accept. */
  function FirstRejectedFilesystem(entries: Entries<FilesystemConfig>, adapters: map<string, string>): (r: Option<nat>)
    ensures r.Some? ==> r.value < |entries| && !FilesystemAccepted(entries[r.value].0, entries[r.value].1, adapters)
    ensures forall j | 0 <= j < (if r.Some? then r.value else |entries|) ::
              FilesystemAccepted(entries[j].0, entries[j].1, adapters)
    decreases |entries|
  {
    if entries == [] then None
    else if !FilesystemAccepted(entries[0].0, entries[0].1, adapters) then Some(0)
    else
      match FirstRejectedFilesystem(entries[1..], adapters)
      case None => None
      case Some(i) => Some(i + 1)
  }

  /** A failing pass fails with the error of the first filesystem that is not accepted:
      a TypeError for an int name, otherwise its unresolved adapter name. */
  lemma {:induction false} ResolveFilesystemsFirstError(entries: Entries<FilesystemConfig>, adapters: map<string, string>,
                                                        caches: map<string, string>, argumentAliases: bool,
                                                        refs: map<string, string>, s: Services)
    requires ResolveFilesystems(entries, adapters, caches, argumentAliases, refs, s).Err?
    ensures var r := FirstRejectedFilesystem(entries, adapters);
            && r.Some?
            && ResolveFilesystems(entries, adapters, caches, argumentAliases, refs, s).error ==
               FilesystemRejection(entries[r.value].0, entries[r.value].1)
    decreases |entries|
  {
    var d := DefineFilesystem(entries[0].0, entries[0].1, adapters, caches, argumentAliases, s);
    if d.Ok? {
      var rest := entries[1..];
      ResolveFilesystemsFirstError(rest, adapters, caches, argumentAliases, refs[entries[0].0 := FilesystemId(entries[0].0)], d.value);
      var i := FirstRejectedFilesystem(rest, adapters).value;
      assert entries[i + 1] == rest[i];
    }
  }


  /** The filesystem pass adds no definition ids other than filesystem ids of its
      entries and decorator ids of resolved adapters. */
  lemma {:induction false} ResolveFilesystemsNewIds(entries: Entries<FilesystemConfig>, adapters: map<string, string>,
                                                    caches: map<string, string>, argumentAliases: bool,
                                                    refs: map<string, string>, s: Services)
    requires ResolveFilesystems(entries, adapters, caches, argumentAliases, refs, s).Ok?
    ensures var s' := ResolveFilesystems(entries, adapters, caches, argumentAliases, refs, s).value.1;
            s'.definitions.Keys <= s.definitions.Keys
                                   + (set i | 0 <= i < |entries| :: FilesystemId(entries[i].0))
                                   + (set a | a in adapters.Values :: DecoratorId(a))
    decreases |entries|
  {
    if entries != [] {
      var s' := DefineFilesystem(entries[0].0, entries[0].1, adapters, caches, argumentAliases, s).value;
      var rest := entries[1..];
      DefineFilesystemFrame(entries[0].0, entries[0].1, adapters, caches, argumentAliases, s);
      ResolveFilesystemsNewIds(rest, adapters, caches, argumentAliases, refs[entries[0].0 := FilesystemId(entries[0].0)], s');
      assert adapters[entries[0].1.adapter] in adapters.Values;
      forall i | 0 <= i < |rest| ensures FilesystemId(rest[i].0) in (set i | 0 <= i < |entries| :: FilesystemId(entries[i].0)) {
        assert rest[i] == entries[i + 1];
      }
    }
  }

  function FilesystemIds(entries: Entries<FilesystemConfig>): set<string> {
    set i | 0 <= i < |entries| :: FilesystemId(entries[i].0)
  }

  function DecoratorIds(adapters: map<string, string>): set<string> {
    set a | a in adapters.Values :: DecoratorId(a)
  }

  /** The alias names the filesystems may write: each truthy `alias`, and, when
      argument aliases are supported, each filesystem's argument-alias key. */
  function FilesystemAliasNames(entries: Entries<FilesystemConfig>, argumentAliases: bool): set<string> {
    (set i | 0 <= i < |entries| && HasAlias(entries[i].1) :: entries[i].1.alias.value)
    + (if argumentAliases then set i | 0 <= i < |entries| :: ArgumentAliasKey(FilesystemInterface, ArgumentAliasName(entries[i].0))
       else {})
  }

  lemma FilesystemNamesSplit(entries: Entries<FilesystemConfig>, argumentAliases: bool)
    requires entries != []
    ensures FilesystemIds(entries[1..]) <= FilesystemIds(entries)
    ensures FilesystemId(entries[0].0) in FilesystemIds(entries)
    ensures FilesystemAliasNames(entries[1..], argumentAliases) <= FilesystemAliasNames(entries, argumentAliases)
    ensures HasAlias(entries[0].1) ==> entries[0].1.alias.value in FilesystemAliasNames(entries, argumentAliases)
    ensures argumentAliases ==>
            ArgumentAliasKey(FilesystemInterface, ArgumentAliasName(entries[0].0)) in FilesystemAliasNames(entries, argumentAliases)
  {
    var rest := entries[1..];
    forall x | x in FilesystemIds(rest) ensures x in FilesystemIds(entries) {
      var j :| 0 <= j < |rest| && x == FilesystemId(rest[j].0);
      assert rest[j] == entries[j + 1];
    }
    forall x | x in FilesystemAliasNames(rest, argumentAliases) ensures x in FilesystemAliasNames(entries, argumentAliases) {
      if j :| 0 <= j < |rest| && HasAlias(rest[j].1) && x == rest[j].1.alias.value {
        assert rest[j] == entries[j + 1];
      } else {
        var j :| 0 <= j < |rest| && x == ArgumentAliasKey(FilesystemInterface, ArgumentAliasName(rest[j].0));
        assert rest[j] == entries[j + 1];
      }
    }
  }

  /** The filesystem pass keeps every definition that is neither one of its filesystem
      ids nor a decorator id, and every alias that no filesystem names. */
  lemma {:induction false} ResolveFilesystemsFrame(entries: Entries<FilesystemConfig>, adapters: map<string, string>,
                                                   caches: map<string, string>, argumentAliases: bool,
                                                   refs: map<string, string>, s: Services)
    requires ResolveFilesystems(entries, adapters, caches, argumentAliases, refs, s).Ok?
    ensures var s' := ResolveFilesystems(entries, adapters, caches, argumentAliases, refs, s).value.1;
            && (forall id | id in s.definitions && id !in FilesystemIds(entries) && id !in DecoratorIds(adapters) ::
                  id in s'.definitions && s'.definitions[id] == s.definitions[id])
            && (forall a | a in s.aliases && a !in FilesystemAliasNames(entries, argumentAliases) ::
                  a in s'.aliases && s'.aliases[a] == s.aliases[a])
    decreases |entries|
  {
    if entries != [] {
      var name, fs := entries[0].0, entries[0].1;
      var s1 := DefineFilesystem(name, fs, adapters, caches, argumentAliases, s).value;
      var rest := entries[1..];
      DefineFilesystemFrame(name, fs, adapters, caches, argumentAliases, s);
      ResolveFilesystemsFrame(rest, adapters, caches, argumentAliases, refs[name := FilesystemId(name)], s1);
      FilesystemNamesSplit(entries, argumentAliases);
      assert DecoratorId(adapters[fs.adapter]) in DecoratorIds(adapters) by {
        assert adapters[fs.adapter] in adapters.Values;
      }
    }
  }

  /** With distinct names, filesystem i's id ends up holding its definition over its
      adapter, or over the decorator when its cache resolves. */
  lemma {:induction false} ResolveFilesystemsDefinitionAt(entries: Entries<FilesystemConfig>, adapters: map<string, string>,
                                                          caches: map<string, string>, argumentAliases: bool,
                                                          refs: map<string, string>, s: Services, i: nat)
    requires UniqueNames(entries) && i < |entries|
    requires ResolveFilesystems(entries, adapters, caches, argumentAliases, refs, s).Ok?
    ensures var s' := ResolveFilesystems(entries, adapters, caches, argumentAliases, refs, s).value.1;
            var name, fs := entries[i].0, entries[i].1;
            && fs.adapter in adapters
            && FilesystemId(name) in s'.definitions
            && s'.definitions[FilesystemId(name)] ==
               FilesystemDefinition(name, fs,
                 if CacheKey(fs.cache) in caches then DecoratorId(adapters[fs.adapter]) else adapters[fs.adapter])
    decreases |entries|
  {
    var name, fs := entries[0].0, entries[0].1;
    var s1 := DefineFilesystem(name, fs, adapters, caches, argumentAliases, s).value;
    var rest := entries[1..];
    var refs' := refs[name := FilesystemId(name)];
    if i == 0 {
      ResolveFilesystemsFrame(rest, adapters, caches, argumentAliases, refs', s1);
      assert FilesystemId(name) !in FilesystemIds(rest) by {
        forall j | 0 <= j < |rest| ensures FilesystemId(rest[j].0) != FilesystemId(name) {
          assert rest[j] == entries[j + 1];
          if FilesystemId(rest[j].0) == FilesystemId(name) {
            FilesystemIdInjective(rest[j].0, name);
          }
        }
      }
      assert FilesystemId(name) !in DecoratorIds(adapters) by {
        forall a | a in adapters.Values ensures DecoratorId(a) != FilesystemId(name) {
          DecoratorIsNotFilesystem(a, name);
        }
      }
    } else {
      assert UniqueNames(rest) by {
        forall a, b | 0 <= a < b < |rest| ensures rest[a].0 != rest[b].0 {
          assert rest[a] == entries[a + 1] && rest[b] == entries[b + 1];
        }
      }
      ResolveFilesystemsDefinitionAt(rest, adapters, caches, argumentAliases, refs', s1, i - 1);
      assert rest[i - 1] == entries[i];
    }
  }

  // ---------------------------------------------------------------- stream wrappers

  /** hasStreamWrapperConfiguration: some filesystem sets `stream_wrapper`. */
  predicate DeclaresStreamWrapper(entries: Entries<FilesystemConfig>) {
    exists i | 0 <= i < |entries| :: entries[i].1.streamWrapper.Some?
  }

  function StreamWrapperNames(entries: Entries<FilesystemConfig>): set<string> {
    set i | 0 <= i < |entries| && entries[i].1.streamWrapper.Some? :: entries[i].0
  }

  /** The configuration of one stream wrapper: (protocol, filesystem, configuration),
      the configuration null when the block has none; private. */
  function StreamWrapperDefinition(sw: StreamWrapper, filesystemRef: string): Definition {
    Definition(
      StreamWrapperConfigurationTemplate,
      map[0 := Value(Str(sw.protocol)), 1 := Ref(filesystemRef), 2 := Value(sw.configuration.GetOr(Null))],
      [], Some(false), [])
  }

  /** The manager as stream_wrappers.xml declares it (that file is not part of this
      model): an empty configuration table as its argument 0. */
  const ManagerDeclaration: Definition :=
    Definition(StreamWrapperManagerClass, map[0 := References(map[])], [], None, [])

  function ManagerDefinition(configurations: map<string, string>): Definition {
    ManagerDeclaration.ReplaceArgument(0, References(configurations))
  }

  /** The loop of loadStreamWrappers, from `configurations` and `definitions` on. */
  function ConfigureStreamWrappers(entries: Entries<FilesystemConfig>, filesystems: map<string, string>,
                                   configurations: map<string, string>, definitions: map<string, Definition>)
    : (map<string, string>, map<string, Definition>)
    requires forall i | 0 <= i < |entries| :: entries[i].0 in filesystems
    decreases |entries|
  {
    if entries == [] then (configurations, definitions)
    else
      var name, fs := entries[0].0, entries[0].1;
      if fs.streamWrapper.None? then ConfigureStreamWrappers(entries[1..], filesystems, configurations, definitions)
      else
        var id := StreamWrapperConfigurationId(name);
        ConfigureStreamWrappers(entries[1..], filesystems, configurations[name := id],
                                definitions[id := StreamWrapperDefinition(fs.streamWrapper.value, filesystems[name])])
  }

  /** loadStreamWrappers. */
  function RegisterStreamWrappers(entries: Entries<FilesystemConfig>, filesystems: map<string, string>,
                                  installed: bool, s: Services): Result<Services, LoadError>
    requires forall i | 0 <= i < |entries| :: entries[i].0 in filesystems
  {
    if !DeclaresStreamWrapper(entries) then Ok(s)
    else if !installed then Err(StreamWrapperNotInstalled)
    else
      var (configurations, definitions) :=
        ConfigureStreamWrappers(entries, filesystems, map[], s.definitions[StreamWrapperManagerId := ManagerDeclaration]);
      Ok(s.(definitions := definitions[StreamWrapperManagerId := ManagerDefinition(configurations)]))
  }

  /** Without any `stream_wrapper`, nothing is added and the library is not even asked for. */
  lemma NoStreamWrapperNoChange(entries: Entries<FilesystemConfig>, filesystems: map<string, string>,
                                installed: bool, s: Services)
    requires forall i | 0 <= i < |entries| :: entries[i].0 in filesystems
    requires !DeclaresStreamWrapper(entries)
    ensures RegisterStreamWrappers(entries, filesystems, installed, s) == Ok(s)
  {
  }

  lemma StreamWrapperNamesSplit(entries: Entries<FilesystemConfig>)
    requires entries != []
    ensures StreamWrapperNames(entries) ==
            (if entries[0].1.streamWrapper.Some? then {entries[0].0} else {}) + StreamWrapperNames(entries[1..])
  {
    var rest := entries[1..];
    forall n | n in StreamWrapperNames(entries)
      ensures n in (if entries[0].1.streamWrapper.Some? then {entries[0].0} else {}) + StreamWrapperNames(rest)
    {
      var i :| 0 <= i < |entries| && entries[i].1.streamWrapper.Some? && entries[i].0 == n;
      if i > 0 { assert entries[i] == rest[i - 1]; }
    }
    forall n | n in StreamWrapperNames(rest) ensures n in StreamWrapperNames(entries) {
      var i :| 0 <= i < |rest| && rest[i].1.streamWrapper.Some? && rest[i].0 == n;
      assert rest[i] == entries[i + 1];
    }
  }

  /** The table the loop builds maps each declaring name to its configuration id. */
  lemma {:induction false} ConfigureStreamWrappersTable(entries: Entries<FilesystemConfig>, filesystems: map<string, string>,
                                                        configurations: map<string, string>, definitions: map<string, Definition>)
    requires forall i | 0 <= i < |entries| :: entries[i].0 in filesystems
    ensures var c := ConfigureStreamWrappers(entries, filesystems, configurations, definitions).0;
            && c.Keys == configurations.Keys + StreamWrapperNames(entries)
            && (forall n | n in StreamWrapperNames(entries) :: c[n] == StreamWrapperConfigurationId(n))
            && (forall n | n in configurations && n !in StreamWrapperNames(entries) :: c[n] == configurations[n])
    decreases |entries|
  {
    if entries != [] {
      var name, fs := entries[0].0, entries[0].1;
      var rest := entries[1..];
      StreamWrapperNamesSplit(entries);
      assert forall i | 0 <= i < |rest| :: rest[i].0 in filesystems by {
        forall i | 0 <= i < |rest| ensures rest[i].0 in filesystems { assert rest[i] == entries[i + 1]; }
      }
      if fs.streamWrapper.None? {
        ConfigureStreamWrappersTable(rest, filesystems, configurations, definitions);
      } else {
        var id := StreamWrapperConfigurationId(name);
        ConfigureStreamWrappersTable(rest, filesystems, configurations[name := id],
                                     definitions[id := StreamWrapperDefinition(fs.streamWrapper.value, filesystems[name])]);
      }
    }
  }

  function ConfigurationIds(entries: Entries<FilesystemConfig>): set<string> {
    set n | n in StreamWrapperNames(entries) :: StreamWrapperConfigurationId(n)
  }

  lemma ConfigurationIdsSplit(entries: Entries<FilesystemConfig>)
    requires entries != []
    ensures ConfigurationIds(entries) ==
            (if entries[0].1.streamWrapper.Some? then {StreamWrapperConfigurationId(entries[0].0)} else {})
            + ConfigurationIds(entries[1..])
  {
    StreamWrapperNamesSplit(entries);
  }

  /** The loop writes the configuration ids of the declaring names and nothing else. */
  lemma {:induction false} ConfigureStreamWrappersFrame(entries: Entries<FilesystemConfig>, filesystems: map<string, string>,
                                                        configurations: map<string, string>, definitions: map<string, Definition>)
    requires forall i | 0 <= i < |entries| :: entries[i].0 in filesystems
    ensures var d := ConfigureStreamWrappers(entries, filesystems, configurations, definitions).1;
            && d.Keys == definitions.Keys + ConfigurationIds(entries)
            && (forall id | id in definitions && id !in ConfigurationIds(entries) :: d[id] == definitions[id])
    decreases |entries|
  {
    if entries != [] {
      var name, fs := entries[0].0, entries[0].1;
      var rest := entries[1..];
      ConfigurationIdsSplit(entries);
      assert forall i | 0 <= i < |rest| :: rest[i].0 in filesystems by {
        forall i | 0 <= i < |rest| ensures rest[i].0 in filesystems { assert rest[i] == entries[i + 1]; }
      }
      if fs.streamWrapper.None? {
        ConfigureStreamWrappersFrame(rest, filesystems, configurations, definitions);
      } else {
        var id := StreamWrapperConfigurationId(name);
        ConfigureStreamWrappersFrame(rest, filesystems, configurations[name := id],
                                     definitions[id := StreamWrapperDefinition(fs.streamWrapper.value, filesystems[name])]);
      }
    }
  }

  /** With distinct names, a declaring filesystem's configuration holds its own
      (protocol, filesystem reference, configuration or null). */
  lemma {:induction false} ConfigureStreamWrappersDefinitionAt(entries: Entries<FilesystemConfig>, filesystems: map<string, string>,
                                                               configurations: map<string, string>,
                                                               definitions: map<string, Definition>, i: nat)
    requires forall j | 0 <= j < |entries| :: entries[j].0 in filesystems
    requires UniqueNames(entries) && i < |entries| && entries[i].1.streamWrapper.Some?
    ensures var d := ConfigureStreamWrappers(entries, filesystems, configurations, definitions).1;
            && StreamWrapperConfigurationId(entries[i].0) in d
            && d[StreamWrapperConfigurationId(entries[i].0)] ==
               StreamWrapperDefinition(entries[i].1.streamWrapper.value, filesystems[entries[i].0])
    decreases |entries|
  {
    var name, fs := entries[0].0, entries[0].1;
    var rest := entries[1..];
    assert forall j | 0 <= j < |rest| :: rest[j].0 in filesystems by {
      forall j | 0 <= j < |rest| ensures rest[j].0 in filesystems { assert rest[j] == entries[j + 1]; }
    }
    var c' := if fs.streamWrapper.None? then configurations else configurations[name := StreamWrapperConfigurationId(name)];
    var d' := if fs.streamWrapper.None? then definitions
              else definitions[StreamWrapperConfigurationId(name) := StreamWrapperDefinition(fs.streamWrapper.value, filesystems[name])];
    assert ConfigureStreamWrappers(entries, filesystems, configurations, definitions) ==
           ConfigureStreamWrappers(rest, filesystems, c', d');
    if i == 0 {
      ConfigureStreamWrappersFrame(rest, filesystems, c', d');
      forall n | n in StreamWrapperNames(rest) ensures StreamWrapperConfigurationId(n) != StreamWrapperConfigurationId(name) {
        var j :| 0 <= j < |rest| && rest[j].1.streamWrapper.Some? && rest[j].0 == n;
        assert rest[j] == entries[j + 1];
        if StreamWrapperConfigurationId(n) == StreamWrapperConfigurationId(name) {
          StreamWrapperConfigurationIdInjective(n, name);
        }
      }
    } else {
      assert UniqueNames(rest) by {
        forall a, b | 0 <= a < b < |rest| ensures rest[a].0 != rest[b].0 {
          assert rest[a] == entries[a + 1] && rest[b] == entries[b + 1];
        }
      }
      assert rest[i - 1] == entries[i];
      ConfigureStreamWrappersDefinitionAt(rest, filesystems, c', d', i - 1);
    }
  }

  /** With stream wrappers declared and the library installed, the manager's table maps
      exactly the declaring filesystems to their configuration ids, and no alias changes. */
  lemma StreamWrapperTable(entries: Entries<FilesystemConfig>, filesystems: map<string, string>, s: Services)
    requires forall i | 0 <= i < |entries| :: entries[i].0 in filesystems
    requires DeclaresStreamWrapper(entries)
    ensures RegisterStreamWrappers(entries, filesystems, true, s).Ok?
    ensures var s' := RegisterStreamWrappers(entries, filesystems, true, s).value;
            && s'.aliases == s.aliases
            && StreamWrapperManagerId in s'.definitions
            && s'.definitions[StreamWrapperManagerId].args[0].References?
            && var table := s'.definitions[StreamWrapperManagerId].args[0].references;
            && table.Keys == StreamWrapperNames(entries)
            && (forall n | n in table :: table[n] == StreamWrapperConfigurationId(n))
  {
    ConfigureStreamWrappersTable(entries, filesystems, map[], s.definitions[StreamWrapperManagerId := ManagerDeclaration]);
  }

  /** The stream-wrapper pass writes the configuration ids and the manager, and no other
      definition. */
  lemma StreamWrapperFrame(entries: Entries<FilesystemConfig>, filesystems: map<string, string>, s: Services)
    requires forall i | 0 <= i < |entries| :: entries[i].0 in filesystems
    requires DeclaresStreamWrapper(entries)
    ensures RegisterStreamWrappers(entries, filesystems, true, s).Ok?
    ensures var s' := RegisterStreamWrappers(entries, filesystems, true, s).value;
            && s'.definitions.Keys == s.definitions.Keys + ConfigurationIds(entries) + {StreamWrapperManagerId}
            && (forall id | id in s.definitions && id !in ConfigurationIds(entries) && id != StreamWrapperManagerId ::
                  s'.definitions[id] == s.definitions[id])
  {
    ConfigureStreamWrappersFrame(entries, filesystems, map[], s.definitions[StreamWrapperManagerId := ManagerDeclaration]);
  }

  /** With distinct names, each declaring filesystem's configuration holds (protocol,
      filesystem reference, configuration or null) once the pass is over. */
  lemma StreamWrapperConfigurationAt(entries: Entries<FilesystemConfig>, filesystems: map<string, string>, s: Services, i: nat)
    requires forall j | 0 <= j < |entries| :: entries[j].0 in filesystems
    requires UniqueNames(entries) && i < |entries| && entries[i].1.streamWrapper.Some?
    ensures RegisterStreamWrappers(entries, filesystems, true, s).Ok?
    ensures var s' := RegisterStreamWrappers(entries, filesystems, true, s).value;
            && StreamWrapperConfigurationId(entries[i].0) in s'.definitions
            && s'.definitions[StreamWrapperConfigurationId(entries[i].0)] ==
               StreamWrapperDefinition(entries[i].1.streamWrapper.value, filesystems[entries[i].0])
  {
    ConfigurationIsNotManager(entries[i].0);
    ConfigureStreamWrappersDefinitionAt(entries, filesystems, map[], s.definitions[StreamWrapperManagerId := ManagerDeclaration], i);
  }

  // ---------------------------------------------------------------- load

  /** load: all adapters, then all caches, then all filesystems, then the stream wrappers;
      the first exception ends it. */
  function Resolve(config: BundleConfig, adapterFactories: map<string, Factory>, cacheFactories: map<string, Factory>,
                   env: Environment, s: Services): Result<Services, LoadError>
  {
    var adapters :- ResolveServices(AdapterKind, config.adapters, adapterFactories, map[], s);
    var caches :- ResolveServices(CacheKind, config.caches, cacheFactories, map[], adapters.1);
    var filesystems :- ResolveFilesystems(config.filesystems, adapters.0, caches.0, env.argumentAliases, map[], caches.1);
    ResolveFilesystemsRefs(config.filesystems, adapters.0, caches.0, env.argumentAliases, map[], caches.1);
    RegisterStreamWrappers(config.filesystems, filesystems.0, env.streamWrapperInstalled, filesystems.1)
  }

  /** A configuration loads only if every filesystem names a configured adapter. */
  lemma ResolveNeedsDefinedAdapters(config: BundleConfig, adapterFactories: map<string, Factory>,
                                    cacheFactories: map<string, Factory>, env: Environment, s: Services)
    requires Resolve(config, adapterFactories, cacheFactories, env, s).Ok?
    ensures forall i | 0 <= i < |config.filesystems| :: config.filesystems[i].1.adapter in Names(config.adapters)
  {
    var adapters := ResolveServices(AdapterKind, config.adapters, adapterFactories, map[], s).value;
    var caches := ResolveServices(CacheKind, config.caches, cacheFactories, map[], adapters.1).value;
    ResolveServicesIds(AdapterKind, config.adapters, adapterFactories, map[], s);
    ResolveFilesystemsSucceeds(config.filesystems, adapters.0, caches.0, env.argumentAliases, map[], caches.1);
  }

  /** The adapter and cache passes never define the manager's id. */
  lemma ServicesAvoidManager(kind: ServiceKind, entries: Entries<KindConfig>, factories: map<string, Factory>,
                             ids: map<string, string>, s: Services)
    requires ResolveServices(kind, entries, factories, ids, s).Ok?
    requires StreamWrapperManagerId !in s.definitions
    ensures StreamWrapperManagerId !in ResolveServices(kind, entries, factories, ids, s).value.1.definitions
  {
    ResolveServicesFrame(kind, entries, factories, ids, s);
    forall i | 0 <= i < |entries| ensures ServiceId(kind, entries[i].0) != StreamWrapperManagerId {
      ResolvedIdsAreNotManager(kind, entries[i].0, "");
    }
  }

  /** The filesystem pass never defines the manager's id. */
  lemma FilesystemsAvoidManager(entries: Entries<FilesystemConfig>, adapters: map<string, string>, caches: map<string, string>,
                                argumentAliases: bool, refs: map<string, string>, s: Services)
    requires ResolveFilesystems(entries, adapters, caches, argumentAliases, refs, s).Ok?
    requires StreamWrapperManagerId !in s.definitions
    ensures StreamWrapperManagerId !in ResolveFilesystems(entries, adapters, caches, argumentAliases, refs, s).value.1.definitions
  {
    ResolveFilesystemsNewIds(entries, adapters, caches, argumentAliases, refs, s);
    forall i | 0 <= i < |entries| ensures FilesystemId(entries[i].0) != StreamWrapperManagerId {
      ResolvedIdsAreNotManager(AdapterKind, entries[i].0, "");
    }
    forall a | a in adapters.Values ensures DecoratorId(a) != StreamWrapperManagerId {
      ResolvedIdsAreNotManager(AdapterKind, "", a);
    }
  }

  /** Without any `stream_wrapper`, a container without the manager still has none after load. */
  lemma ResolveWithoutStreamWrappers(config: BundleConfig, adapterFactories: map<string, Factory>,
                                     cacheFactories: map<string, Factory>, env: Environment, s: Services)
    requires !DeclaresStreamWrapper(config.filesystems)
    requires StreamWrapperManagerId !in s.definitions
    requires Resolve(config, adapterFactories, cacheFactories, env, s).Ok?
    ensures StreamWrapperManagerId !in Resolve(config, adapterFactories, cacheFactories, env, s).value.definitions
  {
    var adapters := ResolveServices(AdapterKind, config.adapters, adapterFactories, map[], s).value;
    ServicesAvoidManager(AdapterKind, config.adapters, adapterFactories, map[], s);
    var caches := ResolveServices(CacheKind, config.caches, cacheFactories, map[], adapters.1).value;
    ServicesAvoidManager(CacheKind, config.caches, cacheFactories, map[], adapters.1);
    var filesystems := ResolveFilesystems(config.filesystems, adapters.0, caches.0, env.argumentAliases, map[], caches.1).value;
    FilesystemsAvoidManager(config.filesystems, adapters.0, caches.0, env.argumentAliases, map[], caches.1);
    ResolveFilesystemsRefs(config.filesystems, adapters.0, caches.0, env.argumentAliases, map[], caches.1);
    assert Resolve(config, adapterFactories, cacheFactories, env, s).value == filesystems.1;
  }
}
