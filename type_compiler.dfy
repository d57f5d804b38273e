/**
 * RadioDuckDialectTypeCompiler: the generic type visitors it redirects. A type
 * whose visitor is overridden is rendered by another type's generic visitor;
 * every other type keeps its own.
 */
module TypeCompiler {

  /** The toolkit's portable types, by the name of their visitor. `Other` stands
      for every visitor not listed here: its name is never one of the listed
      types' (`Other("REAL")` is not a spelling of `Real`). */
  datatype TypeTag =
    | Real | Float | Numeric | Decimal | DateTime | Timestamp
    | Clob | NClob | Binary | VarBinary | Blob | Text | VarChar
    | Integer | BigInt | SmallInt | Boolean | Date | Time | Char | NChar | NVarChar
    | Other(visitName: string)

  /** The types whose visitor the dialect overrides. */
  predicate Overridden(t: TypeTag) {
    t in {Real, Numeric, DateTime, Clob, NClob, Binary, VarBinary, Text}
  }

  /** The type whose generic visitor renders `t`. */
  function RenderedAs(t: TypeTag): (r: TypeTag)
    ensures Overridden(t) <==> r != t
    ensures !Overridden(r)
    ensures r == t || r in {Float, Decimal, Timestamp, Blob, VarChar}
  {
    match t
    case Real => Float
    case Numeric => Decimal
    case DateTime => Timestamp
    case Clob => Blob
    case NClob => Blob
    case Binary => Blob
    case VarBinary => Blob
    case Text => VarChar
    case _ => t
  }

  /** Rendering twice renders the same way: no override leads to another one. */
  lemma RenderedAsIdempotent(t: TypeTag)
    ensures RenderedAs(RenderedAs(t)) == RenderedAs(t)
  {
  }

  /** Which types end up with each target rendering. */
  lemma RenderedAsPreimages(t: TypeTag)
    ensures RenderedAs(t) == Float <==> t in {Real, Float}
    ensures RenderedAs(t) == Decimal <==> t in {Numeric, Decimal}
    ensures RenderedAs(t) == Timestamp <==> t in {DateTime, Timestamp}
    ensures RenderedAs(t) == Blob <==> t in {Clob, NClob, Binary, VarBinary, Blob}
    ensures RenderedAs(t) == VarChar <==> t in {Text, VarChar}
  {
  }
}
