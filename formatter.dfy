/**
 * Grape::Formatter::ActiveModelSerializers: picks the serializer class for a
 * resource from the endpoint's options, builds it with the merged options and
 * renders it, or hands the resource to Grape's plain JSON formatter when no
 * serializer is found.
 */
module Formatter {
  import opened Values
  import opened Strings

  // The option keys the formatter reads or writes.
  const SymScope: Value := Sym("scope")
  const SymResourceName: Value := Sym("resource_name")
  const SymSerializer: Value := Sym("serializer")
  const SymFor: Value := Sym("for")
  const SymVersion: Value := Sym("version")
  const SymRouteOptions: Value := Sym("route_options")
  const SymPath: Value := Sym("path")
  const SymMeta: Value := Sym("meta")
  const SymMetaKey: Value := Sym("meta_key")

  /**
   * The resource to render. The formatter asks it only whether it responds
   * to `serializer_class` (and, if so, what that returns) and whether it
   * responds to `to_ary`; `data` stands for everything else about it.
   */
  datatype Resource = Resource(data: Value, serializerClass: Option<Value>, toAry: bool)

  /** Library behaviour outside this model, as uninterpreted functions. */
  datatype Library = Library(
    // ActiveModel::Serializer.serializer_for: the name of the resource's default serializer class
    serializerFor: Resource -> Option<string>,
    // String#safe_constantize: the name of the class a constant path resolves to
    constantize: string -> Option<string>,
    // String#classify
    classify: string -> string,
    // to_s of integers, procs, arrays, hashes and endpoints
    describe: Value -> string)

  /** `klass.new(resource, options)`: a serializer built with these options. */
  datatype Instance = Instance(klass: Value, resource: Resource, options: Options)

  /** What `call` returns: the serializer's `to_json`, or `Grape::Formatter::Json.call(resource, env)`. */
  datatype Output = Rendered(serializer: Instance) | JsonFallback(resource: Resource, env: Env)

  /** The hash stored under `env['ams_meta']`, which `other_options` edits in place. */
  class AmsMeta {
    var entries: Options

    constructor (entries: Options)
      ensures this.entries == entries
    {
      this.entries := entries;
    }

    /** Hash#delete: removes the key and returns its value, or nil. */
    method Delete(key: Value) returns (v: Value)
      modifies this
      ensures v == Get(old(entries), key)
      ensures entries == old(entries) - {key}
    {
      v := Get(entries, key);
      entries := entries - {key};
    }
  }

  /** The Rack env: `env['api.endpoint']` and `env['ams_meta']` (null when absent or nil). */
  datatype Env = Env(endpoint: Endpoint, amsMeta: AmsMeta?)

  /** `env['ams_meta'] || {}`, read as a value. */
  function MetaEntries(env: Env): (r: Options)
    reads env.amsMeta
    ensures env.amsMeta == null ==> r == map[]
    ensures env.amsMeta != null ==> r == env.amsMeta.entries
  {
    if env.amsMeta == null then map[] else env.amsMeta.entries
  }

  /** Ruby's `to_s`. */
  function ToS(lib: Library, v: Value): string {
    match v
    case Nil => ""
    case Bool(b) => if b then "true" else "false"
    case Str(s) => s
    case Sym(name) => name
    case Class(name) => name
    case _ => lib.describe(v)
  }

  // ---------------------------------------------------------------------
  // Options from the endpoint

  /** The endpoint's hashes can be merged: `fetch` finds `:route_options` and every operand is a Hash. */
  predicate Mergeable(e: Endpoint) {
    && SymRouteOptions in e.options
    && e.options[SymRouteOptions].Hash?
    && (!Truthy(e.defaultSerializerOptions) || e.defaultSerializerOptions.Hash?)
  }

  /** The five hashes merged, in order; a nil or false `default_serializer_options` counts as `{}`. */
  function Sources(e: Endpoint): (r: seq<Options>)
    requires Mergeable(e)
  {
    [ if e.defaultSerializerOptions.Hash? then e.defaultSerializerOptions.entries else map[],
      e.namespaceOptions,
      e.routeOptions,
      e.options,
      e.options[SymRouteOptions].entries ]
  }

  /**
   * `build_options_from_endpoint`. The array literal is built first, so a
   * missing `:route_options` raises KeyError before any merge; then
   * `default_serializer_options.merge` fails on a non-Hash receiver and
   * `merge` refuses a non-Hash `:route_options`.
   */
  function BuildOptionsFromEndpoint(e: Endpoint): (r: Result<Options>)
    ensures r.Ok? <==> Mergeable(e)
    ensures r == Err(KeyError) <==> SymRouteOptions !in e.options
    ensures r.Ok? ==> forall k :: k in r.value <==> exists i :: 0 <= i < 5 && k in Sources(e)[i]
    ensures r.Ok? ==>
              forall i, k :: (0 <= i < 5 && k in Sources(e)[i] && (forall j :: i < j < 5 ==> k !in Sources(e)[j]))
                ==> r.value[k] == Sources(e)[i][k]
  {
    if SymRouteOptions !in e.options then Err(KeyError)
    else if Truthy(e.defaultSerializerOptions) && !e.defaultSerializerOptions.Hash? then Err(NoMethodError)
    else if !e.options[SymRouteOptions].Hash? then Err(TypeError)
    else
      MergeLastWins(Sources(e));
      Ok(Merge(Sources(e)))
  }

  // ---------------------------------------------------------------------
  // Default root

  /** `endpoint.options[:path][0].to_s`, when `:path` is an Array. */
  function PathText(lib: Library, e: Endpoint): string
    requires Get(e.options, SymPath).List?
  {
    var path := Get(e.options, SymPath).elems;
    ToS(lib, if |path| > 0 then path[0] else Nil)
  }

  /**
   * `default_root`: the innermost namespace's `space`, or else
   * `endpoint.options[:path][0].to_s.split('/')[-1]`.
   */
  function DefaultRoot(lib: Library, e: Endpoint): (r: Result<Value>)
    ensures e.innermostNamespace.Some? ==> r == Ok(e.innermostNamespace.value)
    ensures e.innermostNamespace.None? && !Get(e.options, SymPath).List? ==> r == Err(NoMethodError)
    ensures e.innermostNamespace.None? && Get(e.options, SymPath).List? ==>
              && r.Ok?
              && (r.value == Nil <==> AllSlashes(PathText(lib, e)))
              && (r.value != Nil ==> r.value.Str? && LastSegmentOf(PathText(lib, e), r.value.s))
  {
    match e.innermostNamespace
    case Some(space) => Ok(space)
    case None =>
      if Get(e.options, SymPath).List? then
        var fields := Split(PathText(lib, e));
        SplitLast(PathText(lib, e));
        Ok(if fields == [] then Nil else Str(fields[|fields| - 1]))
      else
        Err(NoMethodError)
  }

  // ---------------------------------------------------------------------
  // Serializer class resolution

  /** `"...".safe_constantize`: the class, or nil. */
  function SafeConstantize(lib: Library, name: string): Value {
    match lib.constantize(name)
    case None => Nil
    case Some(klass) => Class(klass)
  }

  /** `resource_serializer_klass`: ActiveModel::Serializer.serializer_for(resource). */
  function ResourceSerializerKlass(lib: Library, res: Resource): (r: Value)
    ensures r == Nil || r.Class?
    ensures r != Nil <==> lib.serializerFor(res).Some?
    ensures r != Nil ==> lib.serializerFor(res) == Some(r.name)
  {
    match lib.serializerFor(res)
    case None => Nil
    case Some(klass) => Class(klass)
  }

  /** `resource_defined_class`: nil unless the resource responds to `serializer_class`. */
  function ResourceDefinedClass(res: Resource): (r: Value)
    ensures res.serializerClass.None? ==> r == Nil
    ensures res.serializerClass.Some? ==> r == res.serializerClass.value
  {
    match res.serializerClass
    case None => Nil
    case Some(klass) => klass
  }

  /** The constant path `namespace_inferred_class` tries for the default serializer named `klass`. */
  function NamespaceCandidate(lib: Library, o: Options, klass: string): string {
    Deconstantize(ToS(lib, Get(o, SymFor))) + "::" + klass
  }

  /**
   * `namespace_inferred_class`: only when `options[:for]` is set and the
   * registry has a default serializer, the class of that name inside the
   * module enclosing `options[:for]`, if such a class exists.
   */
  function NamespaceInferredClass(lib: Library, res: Resource, o: Options): (r: Value)
    ensures r == Nil || r.Class?
    ensures r != Nil <==> && Truthy(Get(o, SymFor))
                          && lib.serializerFor(res).Some?
                          && lib.constantize(NamespaceCandidate(lib, o, lib.serializerFor(res).value)).Some?
    ensures r != Nil ==> Some(r.name) == lib.constantize(NamespaceCandidate(lib, o, lib.serializerFor(res).value))
  {
    if !Truthy(Get(o, SymFor)) then Nil
    else
      match lib.serializerFor(res)
      case None => Nil
      case Some(klass) => SafeConstantize(lib, NamespaceCandidate(lib, o, klass))
  }

  /** `version(options)` as interpolated: the classified version String, or "" for nil or a non-String. */
  function VersionPrefix(lib: Library, o: Options): (r: string)
    ensures !Get(o, SymVersion).Str? ==> r == ""
    ensures Get(o, SymVersion).Str? ==> r == lib.classify(Get(o, SymVersion).s)
  {
    match Get(o, SymVersion)
    case Str(v) => lib.classify(v)
    case _ => ""
  }

  /**
   * `version_inferred_class`: the default serializer's name under the
   * classified version, if such a class exists. It runs whether or not a
   * version is set.
   */
  function VersionInferredClass(lib: Library, res: Resource, o: Options): (r: Value)
    ensures r == Nil || r.Class?
    ensures r != Nil <==> && lib.serializerFor(res).Some?
                          && lib.constantize(VersionPrefix(lib, o) + "::" + lib.serializerFor(res).value).Some?
    ensures r != Nil ==> Some(r.name) == lib.constantize(VersionPrefix(lib, o) + "::" + lib.serializerFor(res).value)
  {
    match lib.serializerFor(res)
    case None => Nil
    case Some(klass) => SafeConstantize(lib, VersionPrefix(lib, o) + "::" + klass)
  }

  /** The candidates `serializer_klass` tries, highest priority first. */
  function Candidates(lib: Library, res: Resource, o: Options): seq<Value> {
    [ ResourceDefinedClass(res),
      NamespaceInferredClass(lib, res, o),
      VersionInferredClass(lib, res, o),
      ResourceSerializerKlass(lib, res) ]
  }

  /**
   * `serializer_klass`: the first truthy candidate (an `||=` chain), or nil
   * when there is none.
   */
  function SerializerKlass(lib: Library, res: Resource, o: Options): (r: Value)
    ensures var cs := Candidates(lib, res, o);
      forall i :: 0 <= i < |cs| && Truthy(cs[i]) && (forall j :: 0 <= j < i ==> !Truthy(cs[j])) ==> r == cs[i]
    ensures var cs := Candidates(lib, res, o);
      (forall i :: 0 <= i < |cs| ==> !Truthy(cs[i])) ==> r == Nil
  {
    var declared := ResourceDefinedClass(res);
    var byNamespace := NamespaceInferredClass(lib, res, o);
    var byVersion := VersionInferredClass(lib, res, o);
    var byRegistry := ResourceSerializerKlass(lib, res);
    var klass :=
      if Truthy(declared) then declared
      else if Truthy(byNamespace) then byNamespace
      else if Truthy(byVersion) then byVersion
      else byRegistry;
    var cs := Candidates(lib, res, o);
    assert cs == [declared, byNamespace, byVersion, byRegistry];
    assert forall i :: 0 <= i < |cs| && Truthy(cs[i]) && (forall j :: 0 <= j < i ==> !Truthy(cs[j])) ==> klass == cs[i] by {
      forall i | 0 <= i < |cs| && Truthy(cs[i]) && (forall j :: 0 <= j < i ==> !Truthy(cs[j]))
        ensures klass == cs[i]
      {
        if i > 0 { assert !Truthy(cs[0]); }
        if i > 1 { assert !Truthy(cs[1]); }
        if i > 2 { assert !Truthy(cs[2]); }
      }
    }
    assert (forall i :: 0 <= i < |cs| ==> !Truthy(cs[i])) ==> klass == Nil by {
      if forall i :: 0 <= i < |cs| ==> !Truthy(cs[i]) {
        assert !Truthy(cs[0]) && !Truthy(cs[1]) && !Truthy(cs[2]) && !Truthy(cs[3]);
        assert byRegistry == Nil;
      }
    }
    klass
  }

  /**
   * `from_options`: a truthy `options[:serializer]` replaces the inferred
   * class; if it responds to `call`, what the call returns is used instead.
   */
  function FromOptions(o: Options, inferred: Value): (r: Value)
    ensures !Truthy(Get(o, SymSerializer)) ==> r == inferred
    ensures Truthy(Get(o, SymSerializer)) ==>
              r == (if Get(o, SymSerializer).Proc? then Get(o, SymSerializer).result else Get(o, SymSerializer))
  {
    var given := Get(o, SymSerializer);
    if !Truthy(given) then inferred
    else if given.Proc? then given.result
    else given
  }

  /** Line 23: the serializer `fetch_serializer` goes on with. */
  function ChosenSerializer(lib: Library, res: Resource, o: Options): (r: Value)
    ensures !Truthy(Get(o, SymSerializer)) ==> r == SerializerKlass(lib, res, o)
    ensures Truthy(Get(o, SymSerializer)) && !Get(o, SymSerializer).Proc? ==> r == Get(o, SymSerializer)
    ensures Truthy(Get(o, SymSerializer)) && Get(o, SymSerializer).Proc? ==> r == Get(o, SymSerializer).result
  {
    FromOptions(o, SerializerKlass(lib, res, o))
  }

  // ---------------------------------------------------------------------
  // Options for the serializer

  /**
   * The options after lines 26 and 28: `:scope` added only when the key is
   * absent, `:resource_name` set to `root` whenever a root was computed.
   */
  function WithDefaults(o: Options, endpoint: Value, root: Option<Value>): (r: Options)
    ensures r.Keys == o.Keys + {SymScope} + (if root.Some? then {SymResourceName} else {})
    ensures SymScope in o ==> r[SymScope] == o[SymScope]
    ensures SymScope !in o ==> r[SymScope] == endpoint
    ensures root.Some? ==> r[SymResourceName] == root.value
    ensures root.None? && SymResourceName in o ==> r[SymResourceName] == o[SymResourceName]
    ensures forall k :: k in o && k != SymScope && k != SymResourceName ==> r[k] == o[k]
  {
    var scoped := if SymScope in o then o else o[SymScope := endpoint];
    if root.Some? then scoped[SymResourceName := root.value] else scoped
  }

  /** The root line 28 stores: none for a resource that does not respond to `to_ary`. */
  function ListRoot(lib: Library, res: Resource, e: Endpoint): (r: Result<Option<Value>>)
    ensures !res.toAry ==> r == Ok(None)
    ensures res.toAry && DefaultRoot(lib, e).Ok? ==> r == Ok(Some(DefaultRoot(lib, e).value))
    ensures res.toAry && DefaultRoot(lib, e).Err? ==> r == Err(DefaultRoot(lib, e).error)
  {
    if !res.toAry then Ok(None)
    else
      match DefaultRoot(lib, e)
      case Err(err) => Err(err)
      case Ok(root) => Ok(Some(root))
  }

  /**
   * `other_options` for the `meta` and `meta_key` it took out of
   * `env['ams_meta']`. Truthiness decides, not emptiness: with a meta and a
   * meta key the meta goes under that key and the key is recorded under
   * `:meta_key`; with a meta alone it goes under `:meta`; otherwise nothing.
   */
  function MetaExtras(meta: Value, metaKey: Value): (r: Options)
    ensures !Truthy(meta) ==> r == map[]
    ensures Truthy(meta) && !Truthy(metaKey) ==> r == map[SymMeta := meta]
    ensures Truthy(meta) && Truthy(metaKey) ==>
              r.Keys == {SymMetaKey, metaKey} && r[metaKey] == meta
    ensures Truthy(meta) && Truthy(metaKey) && metaKey != SymMetaKey ==> r[SymMetaKey] == metaKey
  {
    var extras: Options := map[];
    var extras := if Truthy(meta) && Truthy(metaKey) then extras[SymMetaKey := metaKey] else extras;
    if Truthy(meta) then extras[if Truthy(metaKey) then metaKey else SymMeta := meta] else extras
  }

  /**
   * What `fetch_serializer` returns, given the entries of `env['ams_meta']`
   * before the call: an error, nil (no serializer), or the serializer built
   * from the merged options with the defaults and the meta extras applied.
   */
  function Resolve(lib: Library, res: Resource, e: Endpoint, meta: Options): (r: Result<Option<Instance>>)
    ensures BuildOptionsFromEndpoint(e).Err? ==> r == Err(BuildOptionsFromEndpoint(e).error)
    ensures r == Ok(None) <==>
              BuildOptionsFromEndpoint(e).Ok? && !Truthy(ChosenSerializer(lib, res, BuildOptionsFromEndpoint(e).value))
    ensures r.Ok? && r.value.Some? ==>
              var built := BuildOptionsFromEndpoint(e).value;
              var extras := MetaExtras(Get(meta, SymMeta), Get(meta, SymMetaKey));
              var inst := r.value.value;
              && inst.klass == ChosenSerializer(lib, res, built)
              && Truthy(inst.klass)
              && inst.resource == res
              && (forall k :: k in extras ==> k in inst.options && inst.options[k] == extras[k])
              && (SymScope !in extras ==>
                    && SymScope in inst.options
                    && inst.options[SymScope] == if SymScope in built then built[SymScope] else EndpointObj(e))
              && (res.toAry && SymResourceName !in extras ==>
                    && SymResourceName in inst.options
                    && DefaultRoot(lib, e).Ok?
                    && inst.options[SymResourceName] == DefaultRoot(lib, e).value)
              && (!res.toAry && SymResourceName in built && SymResourceName !in extras ==>
                    && SymResourceName in inst.options
                    && inst.options[SymResourceName] == built[SymResourceName])
              && (forall k :: k in built && k != SymScope && k != SymResourceName && k !in extras ==>
                    k in inst.options && inst.options[k] == built[k])
              && inst.options.Keys == built.Keys + {SymScope} + (if res.toAry then {SymResourceName} else {}) + extras.Keys
              && (res.toAry ==> DefaultRoot(lib, e).Ok?)
    ensures r.Err? && BuildOptionsFromEndpoint(e).Ok? ==>
              res.toAry && DefaultRoot(lib, e) == Err(r.error)
    ensures && BuildOptionsFromEndpoint(e).Ok?
            && Truthy(ChosenSerializer(lib, res, BuildOptionsFromEndpoint(e).value))
            && res.toAry && DefaultRoot(lib, e).Err?
            ==> r == Err(DefaultRoot(lib, e).error)
  {
    match BuildOptionsFromEndpoint(e)
    case Err(err) => Err(err)
    case Ok(built) =>
      var klass := ChosenSerializer(lib, res, built);
      if !Truthy(klass) then Ok(None)
      else
        match ListRoot(lib, res, e)
        case Err(err) => Err(err)
        case Ok(root) =>
          var extras := MetaExtras(Get(meta, SymMeta), Get(meta, SymMetaKey));
          Ok(Some(Instance(klass, res, WithDefaults(built, EndpointObj(e), root) + extras)))
  }

  // ---------------------------------------------------------------------
  // The formatter's methods, which update state

  /**
   * `other_options`: deletes `:meta` and `:meta_key` from `env['ams_meta']`
   * and builds the extra options from what it deleted.
   */
  method OtherOptions(env: Env) returns (extras: Options)
    modifies env.amsMeta
    ensures extras == MetaExtras(Get(old(MetaEntries(env)), SymMeta), Get(old(MetaEntries(env)), SymMetaKey))
    ensures env.amsMeta != null ==> env.amsMeta.entries == old(env.amsMeta.entries) - {SymMeta, SymMetaKey}
  {
    extras := map[];
    var meta, metaKey := Nil, Nil;
    if env.amsMeta != null {
      meta := env.amsMeta.Delete(SymMeta);
      metaKey := env.amsMeta.Delete(SymMetaKey);
    }
    if Truthy(meta) && Truthy(metaKey) {
      extras := extras[SymMetaKey := metaKey];
    }
    if Truthy(meta) {
      extras := extras[if Truthy(metaKey) then metaKey else SymMeta := meta];
    }
  }

  /** Two calls in a row: the first takes the meta out, so the second finds nothing. */
  method OtherOptionsTwice(env: Env) returns (first: Options, second: Options)
    modifies env.amsMeta
    ensures first == MetaExtras(Get(old(MetaEntries(env)), SymMeta), Get(old(MetaEntries(env)), SymMetaKey))
    ensures second == map[]
  {
    first := OtherOptions(env);
    second := OtherOptions(env);
  }

  /**
   * `fetch_serializer`: builds the options, picks the serializer, then
   * fills in `:scope` and `:resource_name` in place and adds the meta
   * extras. `env['ams_meta']` is touched only when a serializer is built.
   */
  method FetchSerializer(lib: Library, resource: Resource, env: Env) returns (r: Result<Option<Instance>>)
    modifies env.amsMeta
    ensures r == Resolve(lib, resource, env.endpoint, old(MetaEntries(env)))
    ensures env.amsMeta != null ==>
              env.amsMeta.entries == if r.Ok? && r.value.Some? then old(env.amsMeta.entries) - {SymMeta, SymMetaKey}
                                     else old(env.amsMeta.entries)
  {
    var built := BuildOptionsFromEndpoint(env.endpoint);
    if built.Err? {
      return Err(built.error);
    }
    var options := built.value;
    var serializer := FromOptions(options, SerializerKlass(lib, resource, options));
    if !Truthy(serializer) {
      return Ok(None);
    }
    if SymScope !in options {
      options := options[SymScope := EndpointObj(env.endpoint)];
    }
    if resource.toAry {
      var root := DefaultRoot(lib, env.endpoint);
      if root.Err? {
        return Err(root.error);
      }
      options := options[SymResourceName := root.value];
    }
    var extras := OtherOptions(env);
    return Ok(Some(Instance(serializer, resource, options + extras)));
  }

  /** `call`: renders with the serializer, or falls back to the plain JSON formatter. */
  method Call(lib: Library, resource: Resource, env: Env) returns (r: Result<Output>)
    modifies env.amsMeta
    ensures var resolved := Resolve(lib, resource, env.endpoint, old(MetaEntries(env)));
      && (resolved.Err? ==> r == Err(resolved.error))
      && (resolved == Ok(None) ==> r == Ok(JsonFallback(resource, env)))
      && (resolved.Ok? && resolved.value.Some? ==> r == Ok(Rendered(resolved.value.value)))
    ensures env.amsMeta != null ==>
              env.amsMeta.entries == if r.Ok? && r.value.Rendered? then old(env.amsMeta.entries) - {SymMeta, SymMetaKey}
                                     else old(env.amsMeta.entries)
  {
    var serializer := FetchSerializer(lib, resource, env);
    match serializer
    case Err(err) =>
      r := Err(err);
    case Ok(None) =>
      r := Ok(JsonFallback(resource, env));
    case Ok(Some(inst)) =>
      r := Ok(Rendered(inst));
  }

  // ---------------------------------------------------------------------
  // Properties

  /** A resource that declares a truthy `serializer_class` gets it, whatever the options say. */
  lemma DeclaredClassWins(lib: Library, res: Resource, o: Options)
    requires res.serializerClass.Some? && Truthy(res.serializerClass.value)
    ensures SerializerKlass(lib, res, o) == res.serializerClass.value
  {
  }

  /**
   * With `options[:for]` naming `Scope::Name`, namespace inference looks
   * for the default serializer inside `Scope`.
   */
  lemma NamespaceInferenceUsesEnclosingModule(lib: Library, res: Resource, o: Options, scope: string, name: string, klass: string)
    requires Truthy(Get(o, SymFor)) && ToS(lib, Get(o, SymFor)) == scope + "::" + name && ':' !in name
    requires lib.serializerFor(res) == Some(klass)
    ensures NamespaceInferredClass(lib, res, o) == SafeConstantize(lib, scope + "::" + klass)
  {
    DeconstantizeQualified(scope, name);
  }

  /** Without a String version, version inference looks the default serializer up at the top level. */
  lemma VersionInferenceWithoutVersion(lib: Library, res: Resource, o: Options, klass: string)
    requires !Get(o, SymVersion).Str?
    requires lib.serializerFor(res) == Some(klass)
    ensures VersionInferredClass(lib, res, o) == SafeConstantize(lib, "::" + klass)
  {
    assert VersionPrefix(lib, o) + "::" + klass == "::" + klass;
  }

  /** A truthy `:serializer` option decides the serializer on its own. */
  lemma OverrideIgnoresInferred(o: Options, inferred1: Value, inferred2: Value)
    requires Truthy(Get(o, SymSerializer))
    ensures FromOptions(o, inferred1) == FromOptions(o, inferred2)
  {
  }
}
