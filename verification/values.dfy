/** The native Ruby values the mappers consume and produce. */
module Values {

  /** A Ruby `Symbol`, identified by its text (`Symbol#to_s`). */
  datatype Sym = Sym(name: string)

  /** A Ruby `Class` object, identified by its name (`Class#to_s`). */
  datatype ClassRef = ClassRef(name: string)

  /** The native values that cross the plugin bridge. */
  datatype Value =
    | Nil
    | Array(items: seq<Value>)
    | Hash(entries: map<Sym, Value>)
    | Symbol(sym: Sym)
    | Class(ref: ClassRef)
    | Str(text: string)
      /** An instance of one of the `Type` wrapper classes; `value` is what it wraps. */
    | Typed(typeClass: string, value: Value)

  /** `String#to_sym`. */
  function ToSym(s: string): Sym
  {
    Sym(s)
  }

  /** The unwrap step of the from-proto aggregate converters: `r = r.value if r.is_a?(Type)`. */
  function Unwrap(r: Value): (u: Value)
    ensures r.Typed? ==> u == r.value
    ensures u == r <==> !r.Typed?
  {
    if r.Typed? then r.value else r
  }
}
