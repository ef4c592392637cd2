/**
 * The declarations each known-type `Mapper` makes when it is constructed: its positional
 * inputs (a class, with an optional refinement block), its output class, and its converter.
 */
module Descriptors {
  import opened Wrappers
  import opened Values
  import opened Messages
  import KnownTypes

  /** The classes named in the declared inputs and outputs. */
  datatype TypeTag =
    | NilClass | ArrayClass | HashClass | SymbolClass | ClassClass | StringClass | TypeClass
    | ArgsNullClass | ArgsArrayClass | ArgsHashClass | ArgsSymbolClass | AnyClass | FuncSpecValueClass
    | MappersClass

  /** An argument handed to a converter: a native value, a protobuf message, or the registry. */
  datatype Arg =
    | Native(v: Value)
    | NullProto(nullMsg: ArgsNull)
    | ArrayProto(arrayMsg: ArgsArray)
    | HashProto(hashMsg: ArgsHash)
    | SymbolProto(symbolMsg: ArgsSymbol)
    | AnyProto(any: Any)
    | SpecValue(fv: FuncSpecValue)
      /** The `Mappers` registry itself, passed to the aggregate converters. */
    | MappersArg

  /** The class of an argument. */
  function TagOf(a: Arg): TypeTag
  {
    match a
    case Native(v) =>
      (match v
       case Nil => NilClass
       case Array(_) => ArrayClass
       case Hash(_) => HashClass
       case Symbol(_) => SymbolClass
       case Class(_) => ClassClass
       case Str(_) => StringClass
       case Typed(_, _) => TypeClass)
    case NullProto(_) => ArgsNullClass
    case ArrayProto(_) => ArgsArrayClass
    case HashProto(_) => ArgsHashClass
    case SymbolProto(_) => ArgsSymbolClass
    case AnyProto(_) => AnyClass
    case SpecValue(_) => FuncSpecValueClass
    case MappersArg => MappersClass
  }

  /** The refinement block of an `Input`; only HashProtoFromSpec declares one. */
  datatype Guard = Unguarded | HashPayloadGuard

  /** `Input.new(type: tag)`, with `guard` standing for its block. */
  datatype Input = Input(tag: TypeTag, guard: Guard)

  /** The known-type mapper classes. */
  datatype Known =
    | NilToProto | NilFromProto
    | ArrayToProto | ArrayFromProto
    | ClassToString
    | HashToProto | HashProtoFromSpec | HashFromProto
    | SymbolToProto | SymbolProtoToAny | SymbolProtoToSymbol

  /** The `inputs:` each mapper declares. */
  function Inputs(m: Known): seq<Input>
  {
    match m
    case NilToProto => [Input(NilClass, Unguarded)]
    case NilFromProto => [Input(ArgsNullClass, Unguarded)]
    case ArrayToProto => [Input(ArrayClass, Unguarded), Input(MappersClass, Unguarded)]
    case ArrayFromProto => [Input(ArgsArrayClass, Unguarded), Input(MappersClass, Unguarded)]
    case ClassToString => [Input(ClassClass, Unguarded)]
    case HashToProto => [Input(HashClass, Unguarded), Input(MappersClass, Unguarded)]
    case HashProtoFromSpec => [Input(FuncSpecValueClass, HashPayloadGuard)]
    case HashFromProto => [Input(ArgsHashClass, Unguarded), Input(MappersClass, Unguarded)]
    case SymbolToProto => [Input(SymbolClass, Unguarded)]
    case SymbolProtoToAny => [Input(ArgsSymbolClass, Unguarded)]
    case SymbolProtoToSymbol => [Input(ArgsSymbolClass, Unguarded)]
  }

  /** The `output:` each mapper declares. */
  function Output(m: Known): TypeTag
  {
    match m
    case NilToProto => ArgsNullClass
    case NilFromProto => NilClass
    case ArrayToProto => ArgsArrayClass
    case ArrayFromProto => ArrayClass
    case ClassToString => StringClass
    case HashToProto => ArgsHashClass
    case HashProtoFromSpec => ArgsHashClass
    case HashFromProto => HashClass
    case SymbolToProto => ArgsSymbolClass
    case SymbolProtoToAny => AnyClass
    case SymbolProtoToSymbol => SymbolClass
  }

  /** An argument satisfies an `Input`: it has the declared class and passes the block, if any. */
  predicate Matches(input: Input, a: Arg)
  {
    && TagOf(a) == input.tag
    && match input.guard
       case Unguarded => true
       case HashPayloadGuard => a.SpecValue? && KnownTypes.HashSpecInput(a.fv)
  }

  /** A mapper accepts an argument list when every position satisfies its declared input. */
  predicate Accepts(m: Known, args: seq<Arg>)
  {
    |args| == |Inputs(m)| && forall i :: 0 <= i < |args| ==> Matches(Inputs(m)[i], args[i])
  }

  /** The mappers whose converter can raise: the four aggregates and the decoding one. */
  predicate MayRaise(m: Known)
  {
    m.ArrayToProto? || m.ArrayFromProto? || m.HashToProto? || m.HashFromProto? || m.HashProtoFromSpec?
  }

  /**
   * Runs the converter of `m` on arguments it accepts. `mapper` is the registry that the
   * `MappersArg` position stands for, and `codec` the protobuf library.
   */
  method Convert(m: Known, args: seq<Arg>, mapper: KnownTypes.Registry, codec: Codec) returns (r: Result<Arg>)
    requires Accepts(m, args)
    ensures r.Ok? ==> TagOf(r.value) == Output(m)
    ensures !MayRaise(m) ==> r.Ok?
  {
    assert Matches(Inputs(m)[0], args[0]);
    match m
    case NilToProto =>
      r := Ok(NullProto(KnownTypes.NilToProto()));
    case NilFromProto =>
      r := Ok(Native(KnownTypes.NilFromProto(args[0].nullMsg)));
    case ArrayToProto =>
      var res := KnownTypes.ArrayToProto(args[0].v.items, mapper);
      r := if res.Ok? then Ok(ArrayProto(res.value)) else Err(res.error);
    case ArrayFromProto =>
      var res := KnownTypes.ArrayFromProto(args[0].arrayMsg, mapper);
      r := if res.Ok? then Ok(Native(Array(res.value))) else Err(res.error);
    case ClassToString =>
      r := Ok(Native(Str(KnownTypes.ClassToString(args[0].v.ref))));
    case HashToProto =>
      var res := KnownTypes.HashToProto(args[0].v.entries, mapper);
      r := if res.Ok? then Ok(HashProto(res.value)) else Err(res.error);
    case HashProtoFromSpec =>
      var res := KnownTypes.HashProtoFromSpec(args[0].fv, codec);
      r := if res.Ok? then Ok(HashProto(res.value)) else Err(res.error);
    case HashFromProto =>
      var res := KnownTypes.HashFromProto(args[0].hashMsg, mapper);
      r := if res.Ok? then Ok(Native(Hash(res.value))) else Err(res.error);
    case SymbolToProto =>
      r := Ok(SymbolProto(KnownTypes.SymbolToProto(args[0].v.sym)));
    case SymbolProtoToAny =>
      r := Ok(AnyProto(KnownTypes.SymbolProtoToAny(args[0].symbolMsg, codec)));
    case SymbolProtoToSymbol =>
      r := Ok(Native(Symbol(KnownTypes.SymbolProtoToSymbol(args[0].symbolMsg))));
  }

  /**
   * HashProtoFromSpec accepts exactly one `FuncSpec::Value` whose type is `Args.Hash` and
   * whose envelope is set.
   */
  lemma HashProtoFromSpecAccepts(args: seq<Arg>)
    ensures Accepts(HashProtoFromSpec, args) <==>
              && |args| == 1
              && args[0].SpecValue?
              && args[0].fv.typeName == HashTypeName
              && args[0].fv.value.Some?
  {
  }

  /** No known mapper accepts a `FuncSpec::Value` that fails HashProtoFromSpec's block. */
  lemma SpecValueNeedsHashPayload(m: Known, fv: FuncSpecValue)
    requires !KnownTypes.HashSpecInput(fv)
    ensures !Accepts(m, [SpecValue(fv)])
  {
    assert !Matches(Inputs(m)[0], SpecValue(fv));
  }

  /** Two known mappers with the same declared input classes and output are the same mapper. */
  lemma SignaturesDistinct(m1: Known, m2: Known)
    requires |Inputs(m1)| == |Inputs(m2)|
    requires forall i :: 0 <= i < |Inputs(m1)| ==> Inputs(m1)[i].tag == Inputs(m2)[i].tag
    requires Output(m1) == Output(m2)
    ensures m1 == m2
  {
  }

  /**
   * Asking for a target output class leaves at most one known mapper for any argument list,
   * so a request with `to:` is never ambiguous among these mappers.
   */
  lemma UnambiguousWithTarget(m1: Known, m2: Known, args: seq<Arg>)
    requires Accepts(m1, args) && Accepts(m2, args)
    requires Output(m1) == Output(m2)
    ensures m1 == m2
  {
  }

  /**
   * Without a target an `Args::Symbol` is accepted by two known mappers with different
   * outputs, so the registry alone decides between them.
   */
  lemma SymbolProtoNeedsTarget(p: ArgsSymbol)
    ensures Accepts(SymbolProtoToAny, [SymbolProto(p)])
    ensures Accepts(SymbolProtoToSymbol, [SymbolProto(p)])
    ensures Output(SymbolProtoToAny) != Output(SymbolProtoToSymbol)
  {
  }
}
