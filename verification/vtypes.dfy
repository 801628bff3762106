/** The resolved types and the identifiers a scope can bind, as the resolver sees them. */
module VTypes {

  /** A resolved type. Every constructor carries the one boolean argument that the
      type constructors of the language take; the resolver always passes `false`. */
  datatype VType =
    | VI8(flag: bool)
    | VI16(flag: bool)
    | VInt(flag: bool)
    | VI128(flag: bool)
    | VBool(flag: bool)
    | VArray(elem: VType)
    | VMap(key: VType, val: VType)
    | VRef(referent: VType)
    | VStruct(name: string)
    | VEnum(name: string)
    | VFunctionType(params: seq<VType>, rets: seq<VType>)

  /** Membership in the integer family (the `VIntegerType` base class). */
  predicate IsIntegerType(t: VType) {
    t.VI8? || t.VI16? || t.VInt? || t.VI128?
  }

  /** What a name can be bound to: a function with its signature type or a variable with its type. */
  datatype Identifier = VFunction(ty: VType) | VVariable(ty: VType)

  /** One namespace level: a finite map from names to identifiers. */
  type Namespace = map<string, Identifier>
}
