/**
 * The `Environment` a document's code runs against: a `module` handle, an
 * alias-aware `require`, and the caller's globals bound as members.
 */
module Environments {
  import opened Wrappers
  import opened JsValues

  /** The members the constructor assigns before the globals: `module` and `require`. */
  function BaseMembers(): map<string, Value> {
    map["module" := Host("Module"), "require" := Host("require")]
  }

  /** The members the constructor leaves: the base ones, each global overriding any of the same name. */
  function InitialMembers(globals: map<string, Value>): (m: map<string, Value>)
    ensures m.Keys == BaseMembers().Keys + globals.Keys
    ensures forall k :: k in globals ==> m[k] == globals[k]
    ensures forall k :: k in m && k !in globals ==> m[k] == BaseMembers()[k]
  {
    BaseMembers() + globals
  }

  /** The error `k in v` throws when `v` is a primitive rather than an object. */
  const InOperatorTypeError: Value := Host("TypeError")

  /**
   * What `require(modulePath)` hands to the module resolver: the alias when
   * `modulePath` is a key of `moduleAliases`, otherwise `modulePath` itself.
   * A host object (a function, say) has no modelled keys, so it aliases nothing.
   */
  function AliasedPath(moduleAliases: Value, modulePath: string): (r: Result<Value, Value>)
    ensures r.Failure? <==> !(moduleAliases.Obj? || moduleAliases.Host?)
    ensures r.Failure? ==> r.error == InOperatorTypeError
    ensures moduleAliases.Obj? && modulePath in moduleAliases.props ==> r == Success(moduleAliases.props[modulePath])
    ensures moduleAliases.Host? ==> r == Success(Str(modulePath))
  {
    match moduleAliases
    case Obj(props) =>
      if modulePath in props then Success(props[modulePath]) else Success(Str(modulePath))
    case Host(_) => Success(Str(modulePath))
    case _ => Failure(InOperatorTypeError)
  }

  /** A path that is not an alias reaches the resolver unchanged. */
  lemma UnaliasedPassesThrough(aliases: map<string, Value>, modulePath: string)
    requires modulePath !in aliases
    ensures AliasedPath(Obj(aliases), modulePath) == Success(Str(modulePath))
  {
  }

  /** An alias is applied once: an alias whose target is itself an alias is not followed further. */
  lemma AliasAppliedOnce(aliases: map<string, Value>, modulePath: string, target: string)
    requires modulePath in aliases && aliases[modulePath] == Str(target)
    ensures AliasedPath(Obj(aliases), modulePath) == Success(Str(target))
    ensures target in aliases && aliases[target] != Str(target) ==>
              AliasedPath(Obj(aliases), modulePath) != AliasedPath(Obj(aliases), target)
  {
  }

  class Environment {
    /** The `filename` argument of `evaluate`, `Undefined` when the caller omits it. */
    const filename: Value
    /** `config.moduleAliases`, which the `require` closure consults on every call. */
    const moduleAliases: Value
    /** The own properties of the environment object, which executed code reads and writes as globals. */
    var members: map<string, Value>

    /** `new Environment(filename, config)`. */
    constructor (filename: Value, config: map<string, Value>)
      ensures this.filename == filename
      ensures moduleAliases == Property(config, "moduleAliases")
      ensures members == InitialMembers(EnumerableProps(Property(config, "globals")))
    {
      var globals := EnumerableProps(Property(config, "globals"));
      var m := BaseMembers();
      var pending := globals.Keys;
      while pending != {}
        invariant pending <= globals.Keys
        invariant m == BaseMembers() + (globals - pending)
        decreases pending
      {
        var k :| k in pending;
        m := m[k := globals[k]];
        pending := pending - {k};
      }
      assert globals - {} == globals;
      this.filename := filename;
      this.moduleAliases := Property(config, "moduleAliases");
      this.members := m;
    }

    /**
     * `this.require(modulePath)` up to the resolver: the path handed to
     * `mod.require` under the captured aliases, or the TypeError `in` throws.
     */
    function Require(modulePath: string): (r: Result<Value, Value>)
      ensures r.Failure? <==> !(moduleAliases.Obj? || moduleAliases.Host?)
      ensures moduleAliases.Obj? ==>
                r == Success(if modulePath in moduleAliases.props then moduleAliases.props[modulePath] else Str(modulePath))
    {
      AliasedPath(moduleAliases, modulePath)
    }
  }
}
