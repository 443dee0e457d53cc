/** The part of Symfony's ContainerBuilder the extension uses, reduced to two maps:
    service definitions by id, and aliases by name. Definitions and aliases are
    values; the builder's methods update them in place by id, the way the fluent
    calls on a Definition object returned by the builder do. */
module DependencyInjection {
  import opened Wrappers

  /** A value of the processed bundle configuration (a PHP scalar, list or array). */
  datatype Param =
    | Null
    | Bool(b: bool)
    | Int(i: int)
    | Str(s: string)
    | List(items: seq<Param>)
    | Dict(entries: seq<(string, Param)>)

  /** A constructor argument of a service definition. */
  datatype Arg =
    | Ref(id: string)                                  // new Reference($id)
    | Value(value: Param)                              // a literal configuration value
    | Options(options: map<string, Param>)             // an options array
    | References(references: map<string, string>)     // an array of name => Reference($id)

  datatype Tag = Tag(name: string, attributes: map<string, string>)

  datatype MethodCall = MethodCall(name: string, arguments: seq<Arg>)

  /** A service definition: `template` is the parent of a ChildDefinition (or the class
      of a plain definition), `public` is None while the definition has not been made
      public or private explicitly and so keeps what its parent says. */
  datatype Definition = Definition(
    template: string,
    args: map<nat, Arg>,
    tags: seq<Tag>,
    public: Option<bool>,
    calls: seq<MethodCall>)
  {
    /** The fluent calls on a Definition object, as values. */
    function ReplaceArgument(index: nat, arg: Arg): Definition {
      this.(args := args[index := arg])
    }

    function AddTag(tag: Tag): Definition {
      this.(tags := tags + [tag])
    }

    function SetPublic(isPublic: bool): Definition {
      this.(public := Some(isPublic))
    }

    function AddMethodCall(call: MethodCall): Definition {
      this.(calls := calls + [call])
    }
  }

  /** `new ChildDefinition($parent)`: no arguments, tags or calls of its own yet. */
  function ChildDefinition(parent: string): Definition {
    Definition(parent, map[], [], None, [])
  }

  datatype Alias = Alias(target: string, public: bool)

  /** A snapshot of the container: the value the resolver's specification works on. */
  datatype Services = Services(definitions: map<string, Definition>, aliases: map<string, Alias>)

  /** The key registerAliasForArgument gives an alias for a typed, named argument. */
  function ArgumentAliasKey(typeName: string, name: string): string {
    typeName + " $" + name
  }

  class ContainerBuilder {
    var definitions: map<string, Definition>
    var aliases: map<string, Alias>

    function View(): Services
      reads this
    {
      Services(definitions, aliases)
    }

    constructor ()
      ensures View() == Services(map[], map[])
    {
      definitions := map[];
      aliases := map[];
    }

    /** setDefinition: a definition under `id` replaces whatever was there. */
    method SetDefinition(id: string, d: Definition)
      modifies this
      ensures definitions == old(definitions)[id := d]
      ensures aliases == old(aliases)
    {
      definitions := definitions[id := d];
    }

    /** getDefinition($id)->replaceArgument($index, $arg). */
    method ReplaceArgument(id: string, index: nat, arg: Arg)
      requires id in definitions
      modifies this
      ensures definitions == old(definitions)[id := old(definitions)[id].ReplaceArgument(index, arg)]
      ensures aliases == old(aliases)
    {
      definitions := definitions[id := definitions[id].ReplaceArgument(index, arg)];
    }

    /** getDefinition($id)->setPublic($public). */
    method SetPublic(id: string, isPublic: bool)
      requires id in definitions
      modifies this
      ensures definitions == old(definitions)[id := old(definitions)[id].SetPublic(isPublic)]
      ensures aliases == old(aliases)
    {
      definitions := definitions[id := definitions[id].SetPublic(isPublic)];
    }

    /** getDefinition($id)->addMethodCall($method, $arguments). */
    method AddMethodCall(id: string, call: MethodCall)
      requires id in definitions
      modifies this
      ensures definitions == old(definitions)[id := old(definitions)[id].AddMethodCall(call)]
      ensures aliases == old(aliases)
    {
      definitions := definitions[id := definitions[id].AddMethodCall(call)];
    }

    /** setAlias($name, $target) as the extension's try/catch reads it: refused
        (ok == false, nothing changes) when `name` is already an alias, so that the
        catch branch reuses that alias. This is a modelling choice, not Symfony's
        behaviour: Symfony's setAlias replaces an existing alias and throws only for an
        invalid or self-referencing alias id. */
    method TrySetAlias(name: string, target: string) returns (ok: bool)
      modifies this
      ensures ok <==> name !in old(aliases)
      ensures aliases == if ok then old(aliases)[name := Alias(target, false)] else old(aliases)
      ensures definitions == old(definitions)
    {
      ok := name !in aliases;
      if ok {
        aliases := aliases[name := Alias(target, false)];
      }
    }

    /** getAlias($name)->setPublic($public). */
    method SetAliasPublic(name: string, isPublic: bool)
      requires name in aliases
      modifies this
      ensures aliases == old(aliases)[name := old(aliases)[name].(public := isPublic)]
      ensures definitions == old(definitions)
    {
      aliases := aliases[name := aliases[name].(public := isPublic)];
    }

    /** registerAliasForArgument($id, $type, $name)->setPublic(false): a private alias
        for the argument `$name` of type `typeName`, replacing any alias of that key. */
    method RegisterAliasForArgument(id: string, typeName: string, name: string)
      modifies this
      ensures aliases == old(aliases)[ArgumentAliasKey(typeName, name) := Alias(id, false)]
      ensures definitions == old(definitions)
    {
      aliases := aliases[ArgumentAliasKey(typeName, name) := Alias(id, false)];
    }
  }
}
