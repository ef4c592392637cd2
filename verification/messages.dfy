/** The protobuf messages of the plugin SDK that the known-type mappers read and build. */
module Messages {
  import opened Wrappers

  type Bytes = seq<bv8>

  /** Full protobuf names of the SDK argument messages used here. */
  const HashTypeName: string := "hashicorp.vagrant.sdk.Args.Hash"
  const SymbolTypeName: string := "hashicorp.vagrant.sdk.Args.Symbol"

  /** A `google.protobuf.Any` envelope: the full name of the embedded message and its encoding. */
  datatype Any = Any(typeName: string, payload: Bytes)

  /** `SDK::Args::Null`: no fields. */
  datatype ArgsNull = ArgsNull

  /** `SDK::Args::Array`: its `list` of envelopes. */
  datatype ArgsArray = ArgsArray(list: seq<Any>)

  /** `SDK::Args::Hash`: its `fields`, a string-keyed map of envelopes. */
  datatype ArgsHash = ArgsHash(fields: map<string, Any>)

  /** `SDK::Args::Symbol`: the symbol's text in `str`. */
  datatype ArgsSymbol = ArgsSymbol(str: string)

  /** `SDK::FuncSpec::Value`: a named argument whose `value` envelope may be unset (nil). */
  datatype FuncSpecValue = FuncSpecValue(name: string, typeName: string, value: Option<Any>)

  /** The protobuf library's encoders and decoders for the messages packed or decoded here. */
  datatype Codec = Codec(
    encodeSymbol: ArgsSymbol -> Bytes,
    decodeSymbol: Bytes -> Result<ArgsSymbol>,
    encodeHash: ArgsHash -> Bytes,
    decodeHash: Bytes -> Result<ArgsHash>)

  /** Decoding an encoded `Args::Symbol` gives it back. */
  ghost predicate SymbolCodecRoundTrips(codec: Codec)
  {
    forall p :: codec.decodeSymbol(codec.encodeSymbol(p)) == Ok(p)
  }

  /** Decoding an encoded `Args::Hash` gives it back. */
  ghost predicate HashCodecRoundTrips(codec: Codec)
  {
    forall h :: codec.decodeHash(codec.encodeHash(h)) == Ok(h)
  }
}
