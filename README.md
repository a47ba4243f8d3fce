# Grape ActiveModelSerializers formatter, modelled in Dafny

This project models `Grape::Formatter::ActiveModelSerializers`, the Grape
response formatter that renders a resource with an ActiveModel serializer.
For each response it merges the endpoint's option hashes and picks a
serializer class. A truthy `:serializer` option overrides the pick.
Otherwise the choice runs through a priority chain: the resource's own
`serializer_class`, then a class inferred from the `:for` option's enclosing
module, then one inferred from the API version, then ActiveModel's
registry. The formatter then fills in `:scope` and `:resource_name`, adds
meta options taken out of `env['ams_meta']` and renders with the
serializer. When no serializer is found, it falls back to Grape's plain JSON
formatter.

Files:

- `values.dfy` (module `Values`): Ruby values (`nil`, booleans, strings,
  symbols, classes, procs, arrays, hashes, the endpoint object), Ruby
  truthiness, `Hash#[]`, and `reduce(:merge)` with the "later hash wins"
  lemma. It also holds the endpoint record: three option hashes, the default
  serializer options (any value, usually a hash or nil) and the innermost
  namespace.
- `strings.dfy` (module `Strings`): ActiveSupport's `deconstantize` and
  Ruby's `split('/')`. Trailing empty fields are dropped, as Ruby does, so
  `split('/')[-1]` is nil exactly for an empty or all-slash path.
- `formatter.dfy` (module `Formatter`): the resolver itself. The pure
  helpers (`build_options_from_endpoint`, `default_root`, `serializer_klass`,
  `from_options`, the three inference helpers) are functions. The parts that
  change state are methods:
  - `other_options` deletes `:meta` and `:meta_key` from the `AmsMeta`
    object held by the env.
  - `fetch_serializer` updates its local options hash step by step.
  - `call` renders or falls back.

  `FetchSerializer` is proved against the pure function `Resolve`.
  `OtherOptions` is proved against `MetaExtras`.

The library calls are fields of a `Library` value and are left
uninterpreted. They are `ActiveModel::Serializer.serializer_for`,
`String#safe_constantize`, `String#classify` and `to_s` on objects with no
fixed text. A class is identified by its name. `serializer.new(resource,
options)` is the record `Instance(klass, resource, options)`. Both `to_json`
and `Grape::Formatter::Json.call(resource, env)` are opaque results: the
`Output` constructors `Rendered` and `JsonFallback`.

Details of the code that the model follows exactly:

- A meta is used when it is truthy, not when it is non-empty. An empty hash
  as meta is still passed on.
- The `:serializer` override applies when the option is truthy, not merely
  present.
- A missing `:route_options` key is not handled. `Hash#fetch` raises
  KeyError, and the model returns `Err(KeyError)`.
- If the caller's meta key is `:meta_key` itself, the meta overwrites the
  recorded key, so the result is `{meta_key: meta}`. `MetaExtras` states
  this case.
- Version inference runs even when no version is set. It then looks up
  `"::<default serializer>"`, which is a top-level constant
  (`VersionInferenceWithoutVersion`).

## Model

| member | source | states |
|---|---|---|
| `Values.Merge` | lib/grape-active_model_serializers/formatter.rb:43 | the keys of `hashes.reduce(:merge)` are exactly the keys of the merged hashes |
| `Values.MergeLastWins` | lib/grape-active_model_serializers/formatter.rb:43 | in `reduce(:merge)` a key takes its value from the last hash that holds it |
| `Strings.RIndexSep` | lib/grape-active_model_serializers/formatter.rb:99 | `rindex("::")` finds a `::` and none starts after it; no result means the string has no `::` |
| `Strings.Deconstantize` | lib/grape-active_model_serializers/formatter.rb:99 | `deconstantize` returns the prefix before the last `::`, or "" when there is none |
| `Strings.DeconstantizeQualified` | lib/grape-active_model_serializers/formatter.rb:99 | deconstantizing `Scope::Name` gives back `Scope` |
| `Strings.Fields` | lib/grape-active_model_serializers/formatter.rb:58 | `split('/', -1)` gives at least one field (`JoinFields` and `FieldsSlashFree` state the rest) |
| `Strings.FieldsSlashFree` | lib/grape-active_model_serializers/formatter.rb:58 | no field of `split('/', -1)` contains `/` |
| `Strings.Split` | lib/grape-active_model_serializers/formatter.rb:58 | `split('/')` is the fields with the trailing empty ones removed: a prefix of the fields that does not end in "", with only "" after it |
| `Strings.TrimEnd` | lib/grape-active_model_serializers/formatter.rb:58 | removing trailing slashes leaves a prefix that is empty or ends in a non-slash, and it is empty exactly for an all-slash string |
| `Strings.JoinFields` | lib/grape-active_model_serializers/formatter.rb:58 | joining the fields with `/` gives back the string (round trip) |
| `Strings.DropTrailingEmpty` | lib/grape-active_model_serializers/formatter.rb:58 | `split` keeps a prefix of the fields that does not end in an empty field, and drops only empty ones |
| `Strings.LastField` | lib/grape-active_model_serializers/formatter.rb:58 | the last field of `split('/', -1)` is the suffix after the last `/`, and it contains no `/` |
| `Strings.SplitTrailingSlash` | lib/grape-active_model_serializers/formatter.rb:58 | a trailing `/` does not change `split('/')` |
| `Strings.SplitNoTrailingSlash` | lib/grape-active_model_serializers/formatter.rb:58 | without a trailing `/`, `split('/')` keeps every field and the last one is non-empty |
| `Strings.SplitLast` | lib/grape-active_model_serializers/formatter.rb:58 | `split('/')` is empty exactly for an empty or all-slash string; otherwise its last element is the string's last segment once trailing slashes are ignored (non-empty, no `/`, at the start or after a `/`) |
| `Formatter.BuildOptionsFromEndpoint` | lib/grape-active_model_serializers/formatter.rb:42-44 | the result is the five hashes merged left to right (nil defaults as `{}`), later hashes winning; a missing `:route_options` raises KeyError; a non-Hash operand raises |
| `Formatter.DefaultRoot` | lib/grape-active_model_serializers/formatter.rb:48-60 | the innermost namespace's space if there is one; else nil for an empty or all-slash path, otherwise the path's last segment (non-empty, no `/`) |
| `Formatter.MetaEntries` | lib/grape-active_model_serializers/formatter.rb:34 | `env['ams_meta']` read with a `{}` default: the stored hash, or `{}` when there is none |
| `Formatter.ResourceDefinedClass` | lib/grape-active_model_serializers/formatter.rb:79-81 | nil when the resource does not respond to `serializer_class`, otherwise what that returns |
| `Formatter.ResourceSerializerKlass` | lib/grape-active_model_serializers/formatter.rb:93-95 | nil when the registry has no serializer for the resource, otherwise the class it names |
| `Formatter.VersionPrefix` | lib/grape-active_model_serializers/formatter.rb:89-91 | `options[:version].try(:classify)` interpolated: the classified version for a String, "" for nil or anything else |
| `Formatter.NamespaceInferredClass` | lib/grape-active_model_serializers/formatter.rb:97-103 | a class only when `:for` is truthy, the registry has a default serializer, and `<deconstantized for>::<serializer>` resolves; otherwise nil |
| `Formatter.VersionInferredClass` | lib/grape-active_model_serializers/formatter.rb:83-91 | a class only when the registry has a default serializer and `<classified version>::<serializer>` resolves; otherwise nil |
| `Formatter.SerializerKlass` | lib/grape-active_model_serializers/formatter.rb:62-68 | the first truthy candidate wins, in the order declared class, namespace-inferred, version-inferred, `serializer_for`; nil if none is truthy |
| `Formatter.FromOptions` | lib/grape-active_model_serializers/formatter.rb:70-77 | a falsy `:serializer` keeps the inferred class; a truthy one replaces it, by its `call` result when it responds to `call` |
| `Formatter.ChosenSerializer` | lib/grape-active_model_serializers/formatter.rb:23 | a falsy `:serializer` gives the first truthy candidate of `serializer_klass`; a truthy one gives itself, or its `call` result for a Proc |
| `Formatter.ListRoot` | lib/grape-active_model_serializers/formatter.rb:28 | no root for a resource that does not respond to `to_ary`; otherwise `default_root`'s value, or its error |
| `Formatter.WithDefaults` | lib/grape-active_model_serializers/formatter.rb:26-28 | `:scope` is set to the endpoint only when the key is absent (a present nil is kept); `:resource_name` is overwritten when a root is given; no other key changes |
| `Formatter.MetaExtras` | lib/grape-active_model_serializers/formatter.rb:37-39 | a falsy meta gives `{}`; a meta alone gives `{meta: meta}`; a meta with a key k gives exactly the keys `:meta_key` and k, with the meta under k |
| `Formatter.Resolve` | lib/grape-active_model_serializers/formatter.rb:15-30 | merge errors propagate; nil exactly when the chosen serializer is falsy; a list resource whose `default_root` fails gives that error; otherwise the options hold exactly the merged keys, `:scope`, `:resource_name` for a list resource, and the meta-extras keys. A present `:scope` is kept, else it is the endpoint; a list resource's `:resource_name` is the default root, a non-list resource keeps its own; every other merged key is unchanged; the meta extras win every conflict |
| `Formatter.AmsMeta.constructor` | lib/grape-active_model_serializers/formatter.rb:34 | the `ams_meta` hash starts with the given entries |
| `Formatter.AmsMeta.Delete` | lib/grape-active_model_serializers/formatter.rb:35-36 | `Hash#delete` returns the old value (nil if absent) and removes only that key |
| `Formatter.OtherOptions` | lib/grape-active_model_serializers/formatter.rb:32-40 | returns `MetaExtras` of the deleted `meta`/`meta_key`; `ams_meta` loses exactly those two keys |
| `Formatter.OtherOptionsTwice` | lib/grape-active_model_serializers/formatter.rb:32-40 | an immediate second `other_options` returns `{}` |
| `Formatter.FetchSerializer` | lib/grape-active_model_serializers/formatter.rb:15-30 | the in-place option updates yield `Resolve`; `ams_meta` is changed only when a serializer is built |
| `Formatter.Call` | lib/grape-active_model_serializers/formatter.rb:5-13 | renders the resolved serializer, and `ams_meta` then loses `:meta` and `:meta_key`; with none, returns exactly the JSON fallback of `(resource, env)`; on an error or the fallback `ams_meta` is untouched |
| `Formatter.DeclaredClassWins` | lib/grape-active_model_serializers/formatter.rb:79-81 | a truthy `serializer_class` declared by the resource is chosen, whatever the options say |
| `Formatter.NamespaceInferenceUsesEnclosingModule` | lib/grape-active_model_serializers/formatter.rb:97-103 | with `:for` naming `Scope::Name` and default serializer K, the class looked up is `Scope::K` |
| `Formatter.VersionInferenceWithoutVersion` | lib/grape-active_model_serializers/formatter.rb:83-91 | with no String version, the class looked up is the top-level `::K` |
| `Formatter.OverrideIgnoresInferred` | lib/grape-active_model_serializers/formatter.rb:70-77 | with a truthy `:serializer` the inferred class has no influence |

## Left out

- The `ams_options` hash with the classified `:namespace` is built and never used (formatter.rb lines 18-21). It has no observable effect and is not modelled.
- `serializer.to_json` and `Grape::Formatter::Json.call` are foreign rendering code. Their results are the opaque `Output` values.
- `ActiveModel::Serializer.serializer_for`, `safe_constantize` and `classify` are uninterpreted fields of `Library`. Constant lookup and inflection rules are runtime behaviour. `to_s` of integers, procs, arrays, hashes and endpoints is uninterpreted too.
- Any exception that these library calls might raise is not modelled.
- Grape's `namespace_stackable(:namespace).last` and `settings.peek[:namespace]` are folded into one optional `innermostNamespace`. The namespace object is always truthy, so only its `space` is kept.
- DefaultRoot: only an Array or nil `options[:path]` is modelled. Any other value is reported as NoMethodError, although Ruby's `[]` on a String or a Hash would return something.
- FromOptions: only a `Proc` value responds to `call`. Other callable objects are used verbatim, and the arity of the call is not checked.
- OtherOptions: `env['ams_meta']` is either absent (or nil) or a Hash. Other truthy values are not modelled.
- `klass.new(resource, options)` always succeeds in the model, even for a non-class override.
- The `ams_meta` hash is assumed not to be shared with other live objects. Aliasing beyond the env is not modelled.
