# modelz in Dafny

A model of `index.js` of modelz, a small runtime schema compiler. The module's exported
function takes global options and returns `Schema(fields, config)`. `Schema` returns a
factory that turns a raw data object into a model instance. The instance has converted
fields, a getter and a setter per declared field, and a change signal.

The model has five modules:

- `Values` (values.dfy) holds the JavaScript values the library handles: `undefined`,
  `null`, booleans, numbers, strings, arrays, plain objects and function values. It also
  holds the exceptions that can escape, truthiness, and property reads that give
  `undefined` for a missing key.
- `Config` (config.dfy) holds the default options and lodash `extend`, modelled as an
  override-merge of maps.
- `FieldCompiler` (field_compiler.dfy) models `getConstructor` and `parseConfig`.
  - `getConstructor` resolves a type tag to a converter. The `"string"` and `"number"`
    converters read `castString` and `parseNumbers` when they run.
  - `parseConfig` compiles a declaration into a `Descriptor`. It accepts `[type]`,
    `[type, required, default]` and a bare function. Anything else gives no descriptor.
- `FieldBinding` (field_binding.dfy) models the per-field conversion of one
  instantiation.
  - `FieldValue` converts one field and `Run` folds it over the fields in declaration
    order.
  - Lemmas relate the fold to a reference description (`Converted`) and state the
    behaviour of scalar and array fields.
- `Modelz` (engine.dfy) holds the stateful part.
  - `Engine` owns the shared configuration object.
  - `Engine.Schema` merges a schema's options into that object in place.
  - `Factory.Create` runs the field loop over a working copy of the input.
  - `Instance` has the working store, the properties passed through from the input, the
    getter `Get`, the setter `Set`, and a log of dispatched change events.

In the source, `extend(globalConfig, config)` returns `globalConfig` itself. So every
option read, in `Schema`, in the factory, in the two built-in converters and in the
setter, reads one shared object. A schema's options therefore stay in force for every
later instantiation, including instantiations from schemas defined earlier. The model
keeps this: factories and instances hold a reference to their `Engine` and read
`engine.global` when they run.

The caller's input object is a map value. The model never changes it: every write goes
to the working store, as with the shallow copy `clone(data)` in the source.

test.js also uses features that this `index.js` does not have (test.js:16-52, 114-154). The
model follows the code:

- `preInit` and `onChangeListener` are schema options. `Schema` merges them into the shared
  configuration like any other option, and nothing reads them. Instantiation goes ahead
  as if they were absent.
- A computed-property descriptor (a plain object with `cacheKey`, `get` and `set`), a bare
  type tag such as `'string'`, a two-element declaration such as `['string', true]`, and a
  bare default such as `123` are field declarations that yield no descriptor. Every
  instantiation of a schema that has one throws (`RunFailsOnUnknownShape`,
  `OtherShapesHaveNoDescriptor`).

## Model

| member | source | states |
|---|---|---|
| `Config.Defaults` | index.js:19-26 | castString, parseNumbers, changeEvent and embedPlainData are on by default, extraProperties is off, and arrayConstructor is the identity function |
| `Config.Extend` | index.js:88 | the merge keeps every key of both objects; the source's value wins on a shared key, and the target's other keys are kept |
| `FieldCompiler.GetConstructor` | index.js:28-54 | a function is its own converter; `"string"` and `"number"` resolve to the built-in converters; any other item gives `undefined` |
| `FieldCompiler.Call` | index.js:34-51 | calling a function value. The identity returns its argument. The string converter yields a string or throws "not a string" about the value it was given. The number converter yields a number or throws "not a number" |
| `FieldCompiler.CallValue` | index.js:106-111 | calling a converter or arrayConstructor value succeeds only when it is a function; calling anything else is a TypeError about that value |
| `FieldCompiler.StringConverterContract` | index.js:34-42 | the string converter returns strings unchanged and casts other values only when castString is on; it succeeds exactly then, always yields a string, and otherwise throws "not a string" |
| `FieldCompiler.NumberConverterContract` | index.js:43-51 | the number converter returns numbers unchanged and parses strings only when parseNumbers is on; it succeeds exactly then, always yields a number, and otherwise throws "not a number" |
| `FieldCompiler.BuiltinConverterIdempotent` | index.js:34-51 | converting a value the built-in converter already produced gives the same value back, under any later configuration |
| `FieldCompiler.ParseConfig` | index.js:56-85 | a descriptor exists exactly for one- and three-element arrays and for functions, and its converter is a function or `undefined` |
| `FieldCompiler.OneElementDeclaration` | index.js:57-65 | `[type]` compiles to isArray true, required true, default null, with the converter of `type` |
| `FieldCompiler.ThreeElementDeclaration` | index.js:66-75 | `[type, required, default]` copies positions 1 and 2; isArray holds exactly when `type` is an array; the converter then comes from `type[0]`, otherwise from `type` |
| `FieldCompiler.FunctionDeclaration` | index.js:76-84 | a bare function compiles to isArray false, required true, default null, with the function itself as converter |
| `FieldCompiler.OtherShapesHaveNoDescriptor` | index.js:56-85 | two-element arrays, bare strings, bare numbers and plain objects yield no descriptor |
| `FieldCompiler.DeclarationRoundTrip` | index.js:56-85 | every descriptor the compiler produces is produced again by the three-element declaration built from it |
| `FieldBinding.MapElems` | index.js:106 | mapping a converter keeps the length and gives element i as the conversion of element i; it fails exactly when some element fails, with the first failure's exception |
| `FieldBinding.FieldValue` | index.js:104-112 | one field's new value. A declaration without a descriptor throws at the `isArray` read. A converted array field had an array raw value. A converted field had a function converter. A scalar string or number field yields a string or a number |
| `FieldBinding.Run` | index.js:103-113 | the `each` loop over the working store. On success the store's keys are the input's keys plus the declared names, and every undeclared property reads as it did in the input |
| `FieldBinding.RunMeetsReference` | index.js:103-113 | with distinct field names, the field loop succeeds exactly when every field converts from its raw input value; each declared field then holds that converted value, and every undeclared input property is unchanged |
| `FieldBinding.RunRaisesFirstFailure` | index.js:103-113 | a failing field loop raises the exception of the first field, in declaration order, that fails to convert |
| `FieldBinding.RunFailsOnUnknownShape` | index.js:104-105 | one declaration without a descriptor makes every instantiation fail, whatever the data and the other fields |
| `FieldBinding.ScalarField` | index.js:108-112 | a scalar field is the converter applied to the raw value, or to the default when the raw value is `undefined` |
| `FieldBinding.DefaultsOfBuiltinTypes` | test.js:18-24 | with the field missing, `['string', true, 'typeFoo']` gives 'typeFoo' and `['number', true, 1]` gives 1, under any configuration |
| `FieldBinding.DefaultIsConverted` | index.js:109-112 | the default also goes through the converter: with parseNumbers off, a string default of a number field throws |
| `FieldBinding.RequiredIsNotEnforced` | index.js:72 | the `required` position never changes the value a field gets |
| `FieldBinding.ArrayField` | index.js:105-107 | an array field hands arrayConstructor an array of the input's length with each element converted, and fails if any element fails |
| `FieldBinding.ArrayFieldWithIdentity` | index.js:105-107 | with the default arrayConstructor, the stored array has the input's length and element i is the converted element i |
| `FieldBinding.ArrayFieldHasNoDefault` | index.js:105-106 | an array field never falls back to its default: a missing or non-array raw value throws |
| `FieldBinding.EmptyInputScenario` | index.js:103-113 | `{type: ['string', true, 'typeFoo'], count: ['number', true, 1]}` with an empty input gives `{type: 'typeFoo', count: 1}` |
| `FieldBinding.StringListScenario` | test.js:84-99 | `{list: ['string']}` hands arrayConstructor the string elements unchanged and stores what it returns |
| `Modelz.Engine.constructor` | index.js:18-26 | the engine's configuration is the defaults overridden by the caller's options |
| `Modelz.Engine.Schema` | index.js:87-88 | defining a schema overwrites the shared configuration with the schema's options, and the factory closes over this engine and the declarations |
| `Modelz.Factory.constructor` | index.js:89 | the factory keeps the engine and the declarations it closes over |
| `Modelz.Factory.Create` | index.js:89-126 | instantiation succeeds exactly when the field loop does and stores its result. `_data` and `onChange` are present as embedPlainData and changeEvent say at that moment. Undeclared input properties are copied through unchanged only when extraProperties is on; otherwise the instance has only the declared fields and those two |
| `Modelz.Instance.constructor` | index.js:91-101 | a new instance has the given store, pass-through properties and flags, and an empty event log |
| `Modelz.Instance.Get` | index.js:114-116 | a getter reads the working store when it is embedded as `_data`, otherwise a passed-through `_data` object, and throws when there is no `_data` |
| `Modelz.Instance.Set` | index.js:117-123 | the setter writes only its own field. Every other field reads as before. If changeEvent is on at that moment, exactly one event `(name, new, old)` is appended, with `old` the value before the write. The write is visible through the getter only when the store is embedded. Dispatching without a channel throws after the write |
| `Modelz.ExtraPropertiesScenario` | test.js:102-111 | an undeclared input property is hidden by a plain schema and shown unchanged once a schema switches extraProperties on; the plain schema defined earlier then shows it too |
| `Modelz.ChangeEventScenario` | test.js:74-81 | assigning a string field logs exactly one event with the new and the previous value, and the getter returns the new value |

## Left out

- The `signals` library is not modelled: listeners, `addOnce` and invocation order are
  left out. A dispatch is an append to the instance's event log.
- lodash is not modelled as code.
  - `clone` is a copy of a map value and `extend` is a map override-merge.
  - `each` is iteration over a sequence of `(name, declaration)` pairs in declaration
    order. JavaScript's own key order (integer-like keys first) is not modelled.
  - lodash treats an object with a numeric `length` as array-like. This is not modelled.
  - `extend` also copies inherited enumerable properties. This is not modelled.
- Property reads do not walk the prototype chain. In the source, a type tag that names an
  `Object.prototype` member, such as `"toString"`, resolves to that built-in. In the
  model, such a tag gives `undefined`.
- `'' + value` and `parseFloat` are the opaque functions `Host.concat` and
  `Host.parseFloat`. The model only states when they are called.
- Numbers are `real`. NaN and infinities are not modelled, including the falsiness of NaN.
- Caller-supplied converters and arrayConstructors are the opaque `Host.callback`.
  - `Array.map` also passes an index and the array. These extra arguments are left out.
  - Callbacks are assumed not to call back into the library, for example to define a
    schema during an instantiation.
- `__defineGetter__` and `__defineSetter__` become `Instance.Get` and `Instance.Set` on
  declared field names. Plain assignment to undeclared properties is ordinary JavaScript,
  not library code, and is not modelled.
- A declared field named `_data` or `onChange` collides with the library's own
  properties. That case is not modelled.
- The input is a plain object. With a non-object input such as `undefined`, the working
  copy is not an object. That case is not modelled.
- A raw array-field value is mapped only when it is an array. In the source, an object
  with its own `map` method would have that method called. The model throws instead.
- `Modelz.Instance.Get`: when the passed-through `_data` is a string, number, boolean,
  array or function, the model reads every field as `undefined`. The model ignores
  properties those values may have, such as indices or `length`.
- `Modelz.Instance.Set`: when changeEvent is on but the instance has no channel, the
  model throws. In the source, an `onChange` object passed through from the input would
  have its `dispatch` called instead.
- Computed properties and their dependency notifications are not modelled, because
  `index.js` has no code for them. A computed-property declaration, like a bare tag, a
  two-element declaration or a bare default, yields no descriptor, and instantiation
  throws.
- The `preInit` and `onChangeListener` hooks are not modelled, because `index.js` never
  calls them. Passed as schema options, they are merged into the configuration and
  ignored.
