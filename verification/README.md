# Known-type mappers of Vagrant's plugin RPC bridge, in Dafny

Vagrant's `serve` command talks to plugins over RPC. It turns native Ruby values into
protobuf argument messages and back with a set of `Mapper` classes kept in a `Mappers`
registry. The file `plugins/commands/serve/mappers/known_types.rb` holds the mappers for the
primitive Ruby types: nil, `Array`, `Hash`, `Class` and `Symbol`. This project models those
mappers. Each mapper class declares three things in its constructor:

- its positional inputs (`Input.new(type: ...)`, optionally with a refinement block);
- its output class;
- its converter.

Modules:

- `Wrappers` (wrappers.dfy): `Result` (a converter's value or the exception it raised) and `Option`.
- `Values` (values.dfy): native Ruby values. These are nil, arrays, hashes keyed by symbols,
  symbols, class references, strings, and instances of the `Type` wrapper classes. The module
  also holds the unwrap rule `r = r.value if r.is_a?(Type)`.
- `Messages` (messages.dfy): the SDK messages `Args::Null`, `Args::Array`, `Args::Hash`,
  `Args::Symbol` and `FuncSpec::Value`. It has the `Google::Protobuf::Any` envelope as a pair of a
  message name and a payload. A `Codec` value stands for the protobuf library's encoders and
  decoders.
- `KnownTypes` (known_types.dfy): one converter per mapper class. The registry handed to the
  aggregate converters is a `Registry` value with two functions:
  - `toAny` is `mapper.map(v, to: Google::Protobuf::Any)`;
  - `fromAny` is `mapper.map(a)`.

  Array converters are functions over Ruby's `map`. The two hash converters are methods whose
  loops build the result map key by key, as the Ruby `each` loops do.
- `Descriptors` (descriptors.dfy): the declared `inputs:` and `output:` of every mapper, what it
  means for an argument list to be accepted, and `Convert`, which runs the matching converter.

HashProtoFromSpec's guard (`known_types.rb:140-142`) tests only that `arg.value.value` is not
nil. A protobuf bytes accessor never returns nil, so the guard holds whenever the `value`
envelope is set, and an envelope with empty bytes is accepted.

## Model

| member | source | states |
|---|---|---|
| `KnownTypes.NilRoundTrip` | plugins/commands/serve/mappers/known_types.rb:6-31 | `Args::Null` has exactly one value, which NilToProto yields whatever its input, and NilFromProto maps it back to nil |
| `KnownTypes.MapAll` | plugins/commands/serve/mappers/known_types.rb:50-58 | Ruby `map` with a block that may raise: every element succeeds and the results keep length and order, or the error is the one raised by the first failing element, and no partial list is returned |
| `KnownTypes.ArrayToProto` | plugins/commands/serve/mappers/known_types.rb:49-59 | `list[i]` is the registry's Any for element `i`, same length and order; succeeds iff every element maps; otherwise re-raises the first element error unchanged |
| `KnownTypes.ArrayFromProto` | plugins/commands/serve/mappers/known_types.rb:77-89 | element `i` is the registry's value for `list[i]`, unwrapped exactly when it is a `Type` wrapper; same length and order; all-or-nothing, re-raising the first error |
| `Values.Unwrap` | plugins/commands/serve/mappers/known_types.rb:82 | a registry result is replaced by its wrapped value exactly when it is a `Type` wrapper, and otherwise left unchanged |
| `KnownTypes.ArrayRoundTrip` | plugins/commands/serve/mappers/known_types.rb:49-89 | if the registry maps every element to an Any and back (up to one wrapper), ArrayFromProto after ArrayToProto returns the original array |
| `KnownTypes.HashToProto` | plugins/commands/serve/mappers/known_types.rb:121-134 | the output `fields` has exactly the input's keys (a symbol key stored as its text), each holding the registry's Any for that key's value; succeeds iff every value maps; otherwise re-raises a failing value's error and builds no `Args::Hash` |
| `KnownTypes.HashFromProto` | plugins/commands/serve/mappers/known_types.rb:170-184 | the result's keys are exactly `k.to_sym` for the keys `k` of `fields`, each holding the registry's value, unwrapped when it is a `Type` wrapper; all-or-nothing, re-raising a failing envelope's error |
| `KnownTypes.HashRoundTrip` | plugins/commands/serve/mappers/known_types.rb:121-184 | if the registry maps every value to an Any and back (up to one wrapper), HashFromProto after HashToProto returns the original hash, keys included |
| `KnownTypes.HashSpecRoundTrip` | plugins/commands/serve/mappers/known_types.rb:140-152 | the guard holds exactly when the type is `hashicorp.vagrant.sdk.Args.Hash` and the envelope is set; for an envelope carrying an encoded hash the converter decodes that same hash |
| `KnownTypes.SymbolRoundTrip` | plugins/commands/serve/mappers/known_types.rb:196-226 | SymbolToProto (`str = to_s`) and SymbolProtoToSymbol (`str.to_sym`) are inverse bijections |
| `KnownTypes.SymbolProtoToAny` | plugins/commands/serve/mappers/known_types.rb:210-212 | the packed envelope names the `Args.Symbol` message, and with a codec that decodes what it encodes its payload unpacks back to the input message |
| `KnownTypes.SymbolAnyRoundTrip` | plugins/commands/serve/mappers/known_types.rb:196-226 | a symbol, put into `Args::Symbol` and packed into an Any, unpacks and converts back to the same symbol, given a protobuf codec that decodes what it encodes |
| `Descriptors.Convert` | plugins/commands/serve/mappers/known_types.rb:6-227 | on arguments a mapper accepts, its converter's successful result has the mapper's declared output class; the nil, class and symbol converters never raise (so ClassToString always returns a String) |
| `Descriptors.HashProtoFromSpecAccepts` | plugins/commands/serve/mappers/known_types.rb:137-147 | HashProtoFromSpec accepts exactly one `FuncSpec::Value` whose type is `Args.Hash` and whose envelope is set |
| `Descriptors.SpecValueNeedsHashPayload` | plugins/commands/serve/mappers/known_types.rb:140-144 | no known mapper accepts a `FuncSpec::Value` that fails the refinement block |
| `Descriptors.SignaturesDistinct` | plugins/commands/serve/mappers/known_types.rb:6-227 | no two known mappers declare the same input classes and the same output class |
| `Descriptors.UnambiguousWithTarget` | plugins/commands/serve/mappers/known_types.rb:6-227 | for any argument list, at most one known mapper accepts it with a given output class |
| `Descriptors.SymbolProtoNeedsTarget` | plugins/commands/serve/mappers/known_types.rb:201-222 | an `Args::Symbol` is accepted by both SymbolProtoToAny and SymbolProtoToSymbol, whose outputs differ, so only the requested output class tells them apart |

## Left out

- Logging: the `logger.error` calls before each re-raise are not modelled. Only the re-raise of the same exception is.
- The `Mappers` registry, and the `Mapper` and `Input` base classes, are not part of this model. The registry's `map` is a pair of given functions. How it picks a mapper, including precedence when several match, is not modelled.
- Input matching is modelled as exact class equality plus the refinement block. Ruby's `is_a?` subclass matching is not modelled, because the modelled classes have no subclasses among themselves.
- Protobuf internals: encoding and decoding (`Any.pack`, `Args::Hash.decode`) are the given functions of a `Codec`. The envelope is a pair of a message name and a payload. The `type.googleapis.com/` prefix of the type URL is left out.
- Protobuf stores a symbol key of a string-keyed map under the symbol's text. The model relies on this library conversion without modelling it.
- Native hash keys other than symbols (for example strings) are not modelled.
- `KnownTypes.HashToProto`: Ruby walks the hash in insertion order, so the error raised is that of the first failing entry in that order. The model walks the keys in an unspecified order and states only that the error is that of some failing entry.
- `KnownTypes.HashFromProto`: the order of a protobuf map is unspecified, so the error raised is stated only as that of some failing entry.
- `KnownTypes.ClassToString`: a class reference is modelled by its name, and `cls.to_s` returns that name. Anonymous classes (whose `to_s` is `#<Class:0x...>`) and reassigned constants are not modelled, so nothing is stated about distinct classes sharing a `to_s`; the only property stated is the one `Descriptors.Convert` gives, that it never raises and returns a String.
- Object identity (`Args::Null.new` making a fresh object on each call) is not modelled: messages are values.
