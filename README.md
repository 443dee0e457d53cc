# OneupFlysystemBundle: the container extension, modelled in Dafny

This project models how the bundle's dependency-injection extension
(`OneupFlysystemExtension`) turns a processed bundle configuration into service
definitions. The configuration has three sections: adapters, caches and filesystems.

- **Factory registries.** Factory services tagged `oneup_flysystem.adapter_factory` or
  `oneup_flysystem.cache_factory` are keyed by their key, with `-` replaced by `_`. A
  later factory wins over an earlier one with the same key. Each registry is built
  once and then memoised on the extension object.
- **Adapters and caches.** Each named entry becomes `oneup_flysystem.<name>_adapter`
  (or `_cache`). The factory used is that of the first configured key that has one. If
  no key has one, loading stops with "The adapter 'x' is not configured." (or the cache
  message).
- **Filesystems.** Each one becomes `oneup_flysystem.<name>_filesystem`, a child of
  `oneup_flysystem.filesystem`:
  - It reads from its adapter, or from the decorator `<adapterId>_cached` when its cache
    name resolves.
  - It carries the `visibility` and `disable_asserts` options that are present.
  - It is tagged with its name, and with its mount point when that is truthy.
  - It is public unless it has an alias. The alias is inserted, or reused if it already
    exists, and then made public. Reuse is this model's reading of the try/catch around
    `setAlias`, not Symfony's behaviour (see "Left out").
  - It gets one `addPlugin` call per plugin, in order.
  - When argument aliases are supported, it also gets a private alias for
    `League\Flysystem\FilesystemInterface $<name>[Filesystem]`.
  - A filesystem whose adapter is not resolved stops loading with "The adapter 'x' is
    not defined.".
- **Integer names.** PHP stores a name such as `1` as an int key. The file declares
  `strict_types=1`, so passing that name to the `string $name` parameter of
  `createAdapter`, `createCache` or `createFilesystem` throws a TypeError, and loading
  stops there.
- **Stream wrappers.** If any filesystem has a `stream_wrapper` block:
  - the stream-wrapper library must be installed, or loading stops;
  - each such filesystem gets a private configuration definition holding (protocol,
    filesystem reference, configuration or null);
  - the manager's table maps exactly those filesystems to their configuration ids.

`createAdapter` and `createCache` differ only in the id suffix and the error message, so one method, `CreateService`, models both; it takes the service kind as a parameter.

The model is in two layers:

- **Specification functions.** `Resolution` states each pass as a function from one
  container snapshot (`Services`, two maps) to the next. Its lemmas state what the
  resulting definitions and aliases are.
- **Imperative class.** `Extension.OneupFlysystemExtension` has the extension's two
  memo fields. Its methods update a `DependencyInjection.ContainerBuilder` one call at a
  time, as the PHP does. Each method is proved to leave the container exactly as the
  corresponding function says.

Files:

- `wrappers.dfy`: Option, Result, Outcome.
- `container.dfy`: the container's value types and the mutable `ContainerBuilder`.
- `ids.dfy`: service ids and the `Filesystem` suffix rule.
- `registry.dfy`: factory registries.
- `resolution.dfy`: the specification of `load`.
- `extension.dfy`: the extension class.

Two behaviours of the code are worth stating on their own:

- **Shared decorator.** The decorator is named after the adapter alone, so two cached
  filesystems on one adapter share it, and the later cache wins for both.
  `Resolution.SharedDecorator` proves this.
- **Loading is not atomic.** An exception midway leaves what was already defined.
  `Extension.OneupFlysystemExtension.Load` promises nothing about the container after a
  failure.

## Model

| member | source | states |
|---|---|---|
| Registry.NormalizeKey | src/DependencyInjection/OneupFlysystemExtension.php:195 | the key keeps its length, contains no `-`, and each `-` becomes `_` while every other character is kept |
| Registry.NormalizeKeyIdempotent | src/DependencyInjection/OneupFlysystemExtension.php:195 | normalising a normalised key changes nothing |
| Registry.RegisterKeys | src/DependencyInjection/OneupFlysystemExtension.php:189-198 | the registry's keys are exactly the normalised keys of the tagged factories (plus any it started with) |
| Registry.RegisterLastWins | src/DependencyInjection/OneupFlysystemExtension.php:192-196 | a key holds the last factory whose key normalises to it |
| Registry.RegisterUntouched | src/DependencyInjection/OneupFlysystemExtension.php:192-196 | a key that no factory normalises to keeps its entry |
| Registry.BuildRegistry | src/DependencyInjection/OneupFlysystemExtension.php:189-198 | the foreach loop builds exactly the registry `Register` describes |
| Extension.OneupFlysystemExtension.constructor | src/DependencyInjection/OneupFlysystemExtension.php:20-24 | both memo fields start unset |
| Extension.OneupFlysystemExtension.GetAdapterFactories | src/DependencyInjection/OneupFlysystemExtension.php:183-199 | returns the memoised registry if set; otherwise it builds the registry from the tagged services and stores it |
| Extension.OneupFlysystemExtension.GetCacheFactories | src/DependencyInjection/OneupFlysystemExtension.php:201-217 | the same for the cache factories |
| Resolution.FirstFactoryKey | src/DependencyInjection/OneupFlysystemExtension.php:86-93 | finds the first position whose key has a factory; None when no key has one |
| Resolution.DefineServiceOutcome | src/DependencyInjection/OneupFlysystemExtension.php:70-96 | an entry fails exactly when its name is an int key (a TypeError, under strict_types at :3) or none of its keys has a factory (NotConfigured); otherwise its id is `oneup_flysystem.<name>_adapter`/`_cache`, it is defined by the first matching factory, and aliases are untouched |
| Resolution.MessageIdentifiesError | src/DependencyInjection/OneupFlysystemExtension.php:81-101 | `Message` gives the texts of the exceptions at :81, :95, :101 and :229; equal texts mean the same error, the same kind of service and the same quoted name |
| Resolution.IntegerKeyExamples | src/DependencyInjection/OneupFlysystemExtension.php:45-54 | names such as "0", "1", "42" and "-7" become int keys; "01", "-0", "+1", "1a" and "acme" stay strings |
| Extension.OneupFlysystemExtension.CreateService | src/DependencyInjection/OneupFlysystemExtension.php:70-96 | createAdapter and createCache, for a name typed `string`: the loop leaves the container as `DefineService` says, returns the id, and on failure returns NotConfigured and changes nothing |
| Extension.OneupFlysystemExtension.CreateServices | src/DependencyInjection/OneupFlysystemExtension.php:45-51 | the adapter and cache loops of load follow `ResolveServices`: the name-to-id map and container on success, and the first error, including the TypeError raised at the call for an int name |
| Resolution.ResolveServicesIds | src/DependencyInjection/OneupFlysystemExtension.php:45-51 | the map of adapters (or caches) holds every configured name, under its deterministic id |
| Resolution.ResolveServicesSucceeds | src/DependencyInjection/OneupFlysystemExtension.php:45-51 | the pass succeeds iff every entry has a string name and a factory key |
| Resolution.ResolveServicesFirstError | src/DependencyInjection/OneupFlysystemExtension.php:45-51 | a failing pass fails at `FirstRejectedService`, the first entry that has an int name (TypeError) or no factory key (NotConfigured), with that entry's error |
| Resolution.ResolveServicesFrame | src/DependencyInjection/OneupFlysystemExtension.php:45-51 | the pass adds only the entries' ids; other definitions and all aliases stay unchanged |
| Resolution.ResolveServicesDefinitionAt | src/DependencyInjection/OneupFlysystemExtension.php:45-51 | with distinct names, each entry's id holds its first matching factory's definition over that key's options |
| Ids.ServiceIdInjective | src/DependencyInjection/OneupFlysystemExtension.php:74 | distinct names give distinct service ids |
| Ids.FilesystemIdInjective | src/DependencyInjection/OneupFlysystemExtension.php:105 | distinct names give distinct filesystem ids |
| Ids.DecoratorIsNotFilesystem | src/DependencyInjection/OneupFlysystemExtension.php:105-114 | a decorator id is never a filesystem id |
| Ids.ResolvedIdsAreNotManager | src/DependencyInjection/OneupFlysystemExtension.php:70-114 | no adapter, cache, filesystem or decorator id is the stream-wrapper manager's id |
| Ids.StreamWrapperConfigurationIdInjective | src/DependencyInjection/OneupFlysystemExtension.php:249 | distinct names give distinct configuration ids |
| Ids.ConfigurationIsNotManager | src/DependencyInjection/OneupFlysystemExtension.php:249-254 | no configuration id is the manager's id |
| Resolution.DefineFilesystemFails | src/DependencyInjection/OneupFlysystemExtension.php:98-102 | a filesystem fails iff its name is an int key (TypeError) or its adapter is not resolved (AdapterNotDefined) |
| Resolution.FilesystemDefinitionShape | src/DependencyInjection/OneupFlysystemExtension.php:117-160 | the definition is a child of `oneup_flysystem.filesystem` with exactly the options present; one tag carries `key` and `mount` (the latter iff the mount is truthy); it is public iff there is no alias; and it has one addPlugin call per plugin, in order |
| Resolution.CacheDecoration | src/DependencyInjection/OneupFlysystemExtension.php:107-135 | a resolving cache defines `<adapterId>_cached` over (adapter, cache), and the filesystem reads from it; any other cache name leaves the decorator alone, and the filesystem reads from the adapter |
| Resolution.DefineFilesystemFrame | src/DependencyInjection/OneupFlysystemExtension.php:98-173 | a filesystem adds only its own id and its decorator; only its alias and argument alias may change |
| Resolution.FilesystemAliases | src/DependencyInjection/OneupFlysystemExtension.php:141-170 | a truthy alias ends up public; it targets the filesystem, or keeps the target it already had; the argument alias is private and targets the filesystem; with neither, aliases are unchanged |
| Resolution.SharedDecorator | src/DependencyInjection/OneupFlysystemExtension.php:107-115 | two cached filesystems on one adapter read through one decorator, which holds the later one's cache |
| DependencyInjection.ContainerBuilder.TrySetAlias | src/DependencyInjection/OneupFlysystemExtension.php:143-147 | the alias is inserted iff its name is new; otherwise nothing changes (the catch branch) |
| Extension.OneupFlysystemExtension.DefineDecorator | src/DependencyInjection/OneupFlysystemExtension.php:107-115 | the decorator's three container calls define `DecoratorDefinition`, and aliases stay unchanged |
| Extension.OneupFlysystemExtension.DefineFilesystemService | src/DependencyInjection/OneupFlysystemExtension.php:117-139 | the tag parameters and options built step by step, then the fluent chain, store `FilesystemDefinition` under the id, public and with no calls yet |
| Extension.OneupFlysystemExtension.PublishAlias | src/DependencyInjection/OneupFlysystemExtension.php:141-151 | the filesystem becomes private; aliases become insert-or-get, then public |
| Extension.OneupFlysystemExtension.AttachPlugins | src/DependencyInjection/OneupFlysystemExtension.php:153-160 | the loop appends exactly `PluginCalls`, in order |
| Extension.OneupFlysystemExtension.ConfigureFilesystem | src/DependencyInjection/OneupFlysystemExtension.php:133-170 | once the backend is known, the filesystem's id holds `FilesystemDefinition`; the alias is insert-or-get and public when truthy; the argument alias is set when supported |
| Extension.OneupFlysystemExtension.CreateFilesystem | src/DependencyInjection/OneupFlysystemExtension.php:98-173 | createFilesystem, for a name typed `string`, leaves the container as `DefineFilesystem` says, returns the filesystem id, and changes nothing when the adapter is missing |
| Ids.ArgumentAliasName | src/DependencyInjection/OneupFlysystemExtension.php:162-168 | the result always matches `~filesystem$~i`; it is the name itself iff the name already matches, and otherwise the name followed by "Filesystem" |
| Ids.ArgumentAliasNameIdempotent | src/DependencyInjection/OneupFlysystemExtension.php:164-166 | the suffix is never appended twice |
| Ids.ArgumentAliasNameAppends | tests/DependencyInjection/OneupFlysystemExtensionTest.php:288-316 | "acme" becomes "acmeFilesystem" |
| Ids.ArgumentAliasNameKeepsSuffix | tests/DependencyInjection/OneupFlysystemExtensionTest.php:258-286 | "acme_filesystem" keeps its name |
| Ids.ArgumentAliasNameIgnoresCase | src/DependencyInjection/OneupFlysystemExtension.php:164 | the match ignores ASCII case: "acmeFILESYSTEM" keeps its name |
| Resolution.ResolveFilesystemsRefs | src/DependencyInjection/OneupFlysystemExtension.php:53-55 | `$filesystems` maps every filesystem name to `oneup_flysystem.<name>_filesystem` |
| Resolution.ResolveFilesystemsSucceeds | src/DependencyInjection/OneupFlysystemExtension.php:53-55 | the pass succeeds iff every filesystem has a string name and its adapter reference resolves |
| Resolution.ResolveFilesystemsFirstError | src/DependencyInjection/OneupFlysystemExtension.php:53-55 | a failing pass fails at `FirstRejectedFilesystem`, the first filesystem with an int name (TypeError) or an unresolved adapter (AdapterNotDefined), with that filesystem's error |
| Extension.OneupFlysystemExtension.CreateFilesystems | src/DependencyInjection/OneupFlysystemExtension.php:53-55 | the filesystem loop of load follows `ResolveFilesystems`, the TypeError for an int name included, and on success maps every filesystem name |
| Resolution.ResolveFilesystemsFrame | src/DependencyInjection/OneupFlysystemExtension.php:53-55 | the pass keeps every definition that is not one of its filesystem ids or a decorator id (the adapters and caches included), and every alias that no filesystem names as its alias or argument alias |
| Resolution.ResolveFilesystemsDefinitionAt | src/DependencyInjection/OneupFlysystemExtension.php:53-55 | with distinct names, after the whole pass each filesystem's id holds `FilesystemDefinition` over its decorator when its cache resolves, otherwise over its adapter |
| Resolution.ResolveFilesystemsNewIds | src/DependencyInjection/OneupFlysystemExtension.php:53-55 | the pass adds only filesystem ids and decorator ids |
| Extension.OneupFlysystemExtension.HasStreamWrapperConfiguration | src/DependencyInjection/OneupFlysystemExtension.php:260-269 | true iff some filesystem has a `stream_wrapper` block |
| Resolution.NoStreamWrapperNoChange | src/DependencyInjection/OneupFlysystemExtension.php:224-226 | with no `stream_wrapper` block, the pass succeeds and changes nothing, whether or not the library is installed |
| Resolution.ConfigureStreamWrappersTable | src/DependencyInjection/OneupFlysystemExtension.php:234-252 | the table maps exactly the declaring names to their configuration ids |
| Resolution.ConfigureStreamWrappersFrame | src/DependencyInjection/OneupFlysystemExtension.php:234-252 | the loop adds only configuration ids |
| Resolution.ConfigureStreamWrappersDefinitionAt | src/DependencyInjection/OneupFlysystemExtension.php:240-249 | with distinct names, each configuration holds its own protocol, filesystem reference and configuration (or null), and is private |
| Resolution.StreamWrapperTable | src/DependencyInjection/OneupFlysystemExtension.php:232-254 | when the library is installed, the manager's table maps exactly the declaring filesystems to their configuration ids, and aliases are untouched |
| Resolution.StreamWrapperFrame | src/DependencyInjection/OneupFlysystemExtension.php:232-254 | the pass writes only the configuration ids and the manager |
| Resolution.StreamWrapperConfigurationAt | src/DependencyInjection/OneupFlysystemExtension.php:240-249 | after the pass, with distinct names, each declaring filesystem's configuration holds its protocol, filesystem reference and configuration (or null), and is private |
| Extension.OneupFlysystemExtension.LoadStreamWrappers | src/DependencyInjection/OneupFlysystemExtension.php:222-255 | loadStreamWrappers follows `RegisterStreamWrappers`, the error for a missing library included |
| Resolution.ResolveNeedsDefinedAdapters | src/DependencyInjection/OneupFlysystemExtension.php:41-55 | a configuration loads only if every filesystem names a configured adapter |
| Resolution.ServicesAvoidManager | src/DependencyInjection/OneupFlysystemExtension.php:45-51 | the adapter and cache passes never define the manager's id |
| Resolution.FilesystemsAvoidManager | src/DependencyInjection/OneupFlysystemExtension.php:53-55 | the filesystem pass never defines the manager's id |
| Resolution.ResolveWithoutStreamWrappers | tests/DependencyInjection/OneupFlysystemExtensionTest.php:137-142 | without any `stream_wrapper`, no manager is defined |
| Extension.OneupFlysystemExtension.Load | src/DependencyInjection/OneupFlysystemExtension.php:26-58 | load fills the memo fields, and its outcome and final container are those of `Resolve` (adapters, caches, filesystems, stream wrappers; the first error stops it) |

## Left out

- The XML service files (`factories.xml`, `adapters.xml`, `flysystem.xml`, `cache.xml`, `plugins.xml`, `stream_wrappers.xml`) are not part of this model. The only stand-in is the manager's declaration, `Resolution.ManagerDeclaration`: its class and an empty table.
- `processConfiguration` and the `Configuration` tree are not part of this model. The input is the configuration after processing. Validation is therefore not modelled, including the exception for a defective `stream_wrapper` block.
- `getConfiguration` and `getFactories` only build a Configuration or a pair of registries. `Load` calls the two registry getters directly.
- `findTaggedServiceIds` and `$container->get($id)` are a parameter: the tagged factories, in tag order, each with its key.
- Extension.OneupFlysystemExtension.CreateService: each factory's `create` writes its own definitions. The model stands in one definition under the id: the factory's service over the key's options (`Resolution.FactoryDefinition`).
- `class_exists('Twistor\FlysystemStreamWrapper')` and `method_exists($container, 'registerAliasForArgument')` are the two flags of `Resolution.Environment`.
- DependencyInjection.ContainerBuilder.RegisterAliasForArgument: the alias key uses the name as given. Symfony also camel-cases it (`acme_filesystem` becomes `$acmeFilesystem`), which is not modelled.
- DependencyInjection.ContainerBuilder.TrySetAlias: insert-or-get is a modelling choice for the try/catch at src/DependencyInjection/OneupFlysystemExtension.php:144-148, not Symfony's behaviour. Symfony's `setAlias` replaces an existing alias (and removes a definition of that name), and throws only for an invalid or self-referencing alias id; with it, a second filesystem with the same `alias` takes the alias over. `Resolution.FilesystemAliases`'s "keeps the target it already had" and `Extension.OneupFlysystemExtension.PublishAlias` depend on this choice.
- DependencyInjection.ContainerBuilder.SetDefinition: Symfony's `setDefinition` also removes an alias of the same id; the model keeps aliases and definitions apart.
- Resolution.Message: the TypeError text follows PHP 8 and leaves out the "called in … on line …" suffix. Int keys are taken as 64-bit.
- Extension.OneupFlysystemExtension.Load: after a failure, the outcome is the error, but the partly written container is left unspecified.
- Lemmas that look up one entry's definition (`ResolveServicesDefinitionAt`, `ConfigureStreamWrappersDefinitionAt`, `StreamWrapperConfigurationAt`) assume distinct names, as PHP array keys are. Configuration sections are sequences of pairs.
- `mount`, `alias` and `cache` are optional strings. Only PHP truthiness of strings is modelled: null, "" and "0" are false. A null cache name is looked up as the key "".
- Not modelled: the Flysystem objects at run time, the mount manager, the adapters' behaviour, and the availability test for adapter classes.
