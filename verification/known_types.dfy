/**
 * The converters of the known-type mappers: nil, arrays, hashes, classes and symbols,
 * between native Ruby values and the SDK's protobuf argument messages.
 */
module KnownTypes {
  import opened Wrappers
  import opened Values
  import opened Messages

  /**
   * The mapper registry handed to the aggregate converters as their second input.
   * `toAny(v)` is `mapper.map(v, to: Google::Protobuf::Any)` and `fromAny(a)` is
   * `mapper.map(a)`; how the registry picks a mapper is not part of this model.
   */
  datatype Registry = Registry(toAny: Value -> Result<Any>, fromAny: Any -> Result<Value>)

  // ---------------------------------------------------------------- Nil

  /** NilToProto: a new `Args::Null`, whatever it is given. */
  function NilToProto(): ArgsNull
  {
    ArgsNull
  }

  /** NilFromProto: always nil. */
  function NilFromProto(proto: ArgsNull): Value
  {
    Nil
  }

  lemma NilRoundTrip(proto: ArgsNull)
    ensures NilToProto() == proto
    ensures NilFromProto(NilToProto()) == Nil
  {
  }

  // ---------------------------------------------------------------- Arrays

  /** `f` succeeds on every element before index `i` and raises `e` on element `i`. */
  ghost predicate FailsFirstAt<A, B>(xs: seq<A>, f: A -> Result<B>, i: int, e: Failure)
  {
    0 <= i < |xs| && f(xs[i]) == Err(e) && forall j :: 0 <= j < i ==> f(xs[j]).Ok?
  }

  /**
   * `xs.map { |x| f(x) }` where `f` may raise: the mapped elements in order, or the
   * exception of the first element on which `f` raises.
   */
  function MapAll<A, B>(xs: seq<A>, f: A -> Result<B>): (r: Result<seq<B>>)
    ensures r.Ok? <==> forall i :: 0 <= i < |xs| ==> f(xs[i]).Ok?
    ensures r.Ok? ==> |r.value| == |xs| && forall i :: 0 <= i < |xs| ==> f(xs[i]) == Ok(r.value[i])
    ensures r.Err? ==> exists i :: FailsFirstAt(xs, f, i, r.error)
  {
    if xs == [] then Ok([])
    else
      match f(xs[0])
      case Err(e) =>
        assert FailsFirstAt(xs, f, 0, e);
        Err(e)
      case Ok(y) =>
        match MapAll(xs[1..], f)
        case Err(e) =>
          FailsFirstAtShift(xs, f, e);
          Err(e)
        case Ok(ys) =>
          Ok([y] + ys)
  }

  /** A first failure in the tail is a first failure of the whole sequence when its head succeeds. */
  lemma FailsFirstAtShift<A, B>(xs: seq<A>, f: A -> Result<B>, e: Failure)
    requires xs != [] && f(xs[0]).Ok?
    requires exists i :: FailsFirstAt(xs[1..], f, i, e)
    ensures exists i :: FailsFirstAt(xs, f, i, e)
  {
    var i :| FailsFirstAt(xs[1..], f, i, e);
    assert FailsFirstAt(xs, f, i + 1, e);
  }

  /** ArrayToProto: each element mapped to an Any by the registry, in order, or the first error. */
  function ArrayToProto(items: seq<Value>, mapper: Registry): (r: Result<ArgsArray>)
    ensures r.Ok? <==> forall i :: 0 <= i < |items| ==> mapper.toAny(items[i]).Ok?
    ensures r.Ok? ==> |r.value.list| == |items|
    ensures r.Ok? ==> forall i :: 0 <= i < |items| ==> mapper.toAny(items[i]) == Ok(r.value.list[i])
    ensures r.Err? ==> exists i :: FailsFirstAt(items, mapper.toAny, i, r.error)
  {
    match MapAll(items, mapper.toAny)
    case Ok(list) => Ok(ArgsArray(list))
    case Err(e) => Err(e)
  }

  /** The registry's result for one envelope, with a `Type` wrapper replaced by what it wraps. */
  function UnwrapResult(r: Result<Value>): Result<Value>
  {
    match r
    case Ok(v) => Ok(Unwrap(v))
    case Err(e) => Err(e)
  }

  /**
   * ArrayFromProto: each envelope of `list` mapped back by the registry and unwrapped,
   * in order, or the first error.
   */
  function ArrayFromProto(proto: ArgsArray, mapper: Registry): (r: Result<seq<Value>>)
    ensures r.Ok? <==> forall i :: 0 <= i < |proto.list| ==> mapper.fromAny(proto.list[i]).Ok?
    ensures r.Ok? ==> |r.value| == |proto.list|
    ensures r.Ok? ==> forall i :: 0 <= i < |proto.list| ==>
                        r.value[i] == Unwrap(mapper.fromAny(proto.list[i]).value)
    ensures r.Err? ==> exists i :: FailsFirstAt(proto.list, mapper.fromAny, i, r.error)
  {
    var f := (a: Any) => UnwrapResult(mapper.fromAny(a));
    var r := MapAll(proto.list, f);
    if r.Err? then
      UnwrappedFirstFailure(proto.list, mapper, f, r.error);
      r
    else
      r
  }

  /** Unwrapping keeps which envelopes fail and with what, so a first failure carries over. */
  lemma UnwrappedFirstFailure(list: seq<Any>, mapper: Registry, f: Any -> Result<Value>, e: Failure)
    requires forall a :: f(a) == UnwrapResult(mapper.fromAny(a))
    requires exists i :: FailsFirstAt(list, f, i, e)
    ensures exists i :: FailsFirstAt(list, mapper.fromAny, i, e)
  {
    var i :| FailsFirstAt(list, f, i, e);
    assert FailsFirstAt(list, mapper.fromAny, i, e);
  }

  /**
   * An array whose every element the registry maps to an envelope and back (up to one
   * `Type` wrapper) survives ArrayToProto followed by ArrayFromProto unchanged.
   */
  lemma ArrayRoundTrip(items: seq<Value>, mapper: Registry)
    requires forall i :: 0 <= i < |items| ==> mapper.toAny(items[i]).Ok?
    requires forall i :: 0 <= i < |items| ==>
               UnwrapResult(mapper.fromAny(mapper.toAny(items[i]).value)) == Ok(items[i])
    ensures ArrayToProto(items, mapper).Ok?
    ensures ArrayFromProto(ArrayToProto(items, mapper).value, mapper) == Ok(items)
  {
    var proto := ArrayToProto(items, mapper).value;
    var back := ArrayFromProto(proto, mapper);
    assert back.Ok?;
    assert back.value == items;
  }

  // ---------------------------------------------------------------- Classes

  /** ClassToString: `cls.to_s`. */
  function ClassToString(cls: ClassRef): string
  {
    cls.name
  }

  // ---------------------------------------------------------------- Hashes

  /** The `fields` HashToProto builds when every value maps: key `k.to_s` holds the Any of `hash[k]`. */
  function ProtoFields(hash: map<Sym, Value>, mapper: Registry): map<string, Any>
    requires forall k :: k in hash ==> mapper.toAny(hash[k]).Ok?
  {
    map k | k in hash :: k.name := mapper.toAny(hash[k]).value
  }

  /** The hash HashFromProto builds when every envelope maps: key `s.to_sym` holds the unwrapped value. */
  function HashEntries(fields: map<string, Any>, mapper: Registry): map<Sym, Value>
    requires forall s :: s in fields ==> mapper.fromAny(fields[s]).Ok?
  {
    map s | s in fields :: ToSym(s) := Unwrap(mapper.fromAny(fields[s]).value)
  }

  /**
   * HashToProto: every value mapped to an Any by the registry under its unchanged key
   * (a symbol key is stored under its text), or the error of a value that could not be mapped.
   */
  method HashToProto(hash: map<Sym, Value>, mapper: Registry) returns (r: Result<ArgsHash>)
    ensures r.Ok? <==> forall k :: k in hash ==> mapper.toAny(hash[k]).Ok?
    ensures r.Ok? ==> r.value.fields.Keys == set k | k in hash :: k.name
    ensures r.Ok? ==> forall k :: k in hash ==> mapper.toAny(hash[k]) == Ok(r.value.fields[k.name])
    ensures r.Ok? ==> r.value.fields == ProtoFields(hash, mapper)
    ensures r.Err? ==> exists k :: k in hash && mapper.toAny(hash[k]) == Err(r.error)
  {
    var fields: map<string, Any> := map[];
    var todo := hash.Keys;
    while todo != {}
      invariant todo <= hash.Keys
      invariant forall k :: k in hash && k !in todo ==>
                  mapper.toAny(hash[k]).Ok? && k.name in fields && fields[k.name] == mapper.toAny(hash[k]).value
      invariant forall s :: s in fields ==> Sym(s) in hash && Sym(s) !in todo
      decreases todo
    {
      var k :| k in todo;
      var m := mapper.toAny(hash[k]);
      if m.Err? {
        return Err(m.error);
      }
      fields := fields[k.name := m.value];
      todo := todo - {k};
    }
    r := Ok(ArgsHash(fields));
  }

  /**
   * HashFromProto: every envelope mapped back by the registry and unwrapped, under the
   * symbolised key, or the error of an envelope that could not be mapped.
   */
  method HashFromProto(proto: ArgsHash, mapper: Registry) returns (r: Result<map<Sym, Value>>)
    ensures r.Ok? <==> forall s :: s in proto.fields ==> mapper.fromAny(proto.fields[s]).Ok?
    ensures r.Ok? ==> r.value.Keys == set s | s in proto.fields :: ToSym(s)
    ensures r.Ok? ==> forall s :: s in proto.fields ==>
                        r.value[ToSym(s)] == Unwrap(mapper.fromAny(proto.fields[s]).value)
    ensures r.Ok? ==> r.value == HashEntries(proto.fields, mapper)
    ensures r.Err? ==> exists s :: s in proto.fields && mapper.fromAny(proto.fields[s]) == Err(r.error)
  {
    var result: map<Sym, Value> := map[];
    var todo := proto.fields.Keys;
    while todo != {}
      invariant todo <= proto.fields.Keys
      invariant forall s :: s in proto.fields && s !in todo ==>
                  mapper.fromAny(proto.fields[s]).Ok? && ToSym(s) in result &&
                  result[ToSym(s)] == Unwrap(mapper.fromAny(proto.fields[s]).value)
      invariant forall k :: k in result ==> k.name in proto.fields && k.name !in todo
      decreases todo
    {
      var s :| s in todo;
      var m := mapper.fromAny(proto.fields[s]);
      if m.Err? {
        return Err(m.error);
      }
      result := result[ToSym(s) := Unwrap(m.value)];
      todo := todo - {s};
    }
    r := Ok(result);
  }

  /**
   * A hash whose every value the registry maps to an envelope and back (up to one `Type`
   * wrapper) survives HashToProto followed by HashFromProto unchanged, keys included.
   */
  lemma {:induction false} HashRoundTrip(hash: map<Sym, Value>, mapper: Registry)
    requires forall k :: k in hash ==> mapper.toAny(hash[k]).Ok?
    requires forall k :: k in hash ==>
               UnwrapResult(mapper.fromAny(mapper.toAny(hash[k]).value)) == Ok(hash[k])
    ensures forall s :: s in ProtoFields(hash, mapper) ==> mapper.fromAny(ProtoFields(hash, mapper)[s]).Ok?
    ensures HashEntries(ProtoFields(hash, mapper), mapper) == hash
  {
    var fields := ProtoFields(hash, mapper);
    forall s | s in fields
      ensures mapper.fromAny(fields[s]).Ok?
    {
      assert Sym(s) in hash;
    }
    var back := HashEntries(fields, mapper);
    forall k | k in hash
      ensures k in back && back[k] == hash[k]
    {
      assert k.name in fields && ToSym(k.name) == k;
    }
    assert back.Keys == hash.Keys;
  }

  /** HashProtoFromSpec's input guard: a `FuncSpec::Value` typed as `Args::Hash` whose envelope is set. */
  predicate HashSpecInput(fv: FuncSpecValue)
  {
    fv.typeName == HashTypeName && fv.value.Some?
  }

  /** HashProtoFromSpec: the `Args::Hash` decoded from the bytes of the argument's envelope. */
  function HashProtoFromSpec(fv: FuncSpecValue, codec: Codec): (r: Result<ArgsHash>)
    requires HashSpecInput(fv)
  {
    codec.decodeHash(fv.value.value.payload)
  }

  /**
   * A `FuncSpec::Value` carrying an encoded hash passes the guard and decodes to that hash;
   * one typed otherwise, or without an envelope, fails the guard.
   */
  lemma HashSpecRoundTrip(h: ArgsHash, name: string, typeName: string, payload: Option<Any>, codec: Codec)
    requires HashCodecRoundTrips(codec)
    ensures HashSpecInput(FuncSpecValue(name, HashTypeName, Some(Any(HashTypeName, codec.encodeHash(h)))))
    ensures HashProtoFromSpec(FuncSpecValue(name, HashTypeName, Some(Any(HashTypeName, codec.encodeHash(h)))), codec) == Ok(h)
    ensures HashSpecInput(FuncSpecValue(name, typeName, payload)) <==> typeName == HashTypeName && payload != None
  {
  }

  // ---------------------------------------------------------------- Symbols

  /** SymbolToProto: `Args::Symbol` with `str` set to the symbol's text. */
  function SymbolToProto(input: Sym): ArgsSymbol
  {
    ArgsSymbol(input.name)
  }

  /** SymbolProtoToSymbol: `str.to_sym`. */
  function SymbolProtoToSymbol(input: ArgsSymbol): Sym
  {
    ToSym(input.str)
  }

  /** SymbolToProto and SymbolProtoToSymbol are inverse bijections. */
  lemma SymbolRoundTrip(s: Sym, p: ArgsSymbol)
    ensures SymbolProtoToSymbol(SymbolToProto(s)) == s
    ensures SymbolToProto(SymbolProtoToSymbol(p)) == p
  {
  }

  /** SymbolProtoToAny: `Google::Protobuf::Any.pack(input)`. */
  function SymbolProtoToAny(input: ArgsSymbol, codec: Codec): (r: Any)
    ensures r.typeName == SymbolTypeName
    ensures SymbolCodecRoundTrips(codec) ==> codec.decodeSymbol(r.payload) == Ok(input)
  {
    Any(SymbolTypeName, codec.encodeSymbol(input))
  }

  /**
   * The envelope made by SymbolProtoToAny names `Args::Symbol` and its payload decodes back
   * to the symbol message, so a symbol survives SymbolToProto, packing and unpacking.
   */
  lemma SymbolAnyRoundTrip(s: Sym, codec: Codec)
    requires SymbolCodecRoundTrips(codec)
    ensures SymbolProtoToAny(SymbolToProto(s), codec).typeName == SymbolTypeName
    ensures codec.decodeSymbol(SymbolProtoToAny(SymbolToProto(s), codec).payload) == Ok(SymbolToProto(s))
    ensures SymbolProtoToSymbol(codec.decodeSymbol(SymbolProtoToAny(SymbolToProto(s), codec).payload).value) == s
  {
  }
}
