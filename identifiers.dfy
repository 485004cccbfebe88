/**
 * Identifiers as the parser produces them: an ordered path of components.
 * The parser itself is not part of this model; only the shape of its output
 * and the `is_relative` test on it are.
 */
module Identifiers {
  import opened Json

  datatype IdentifierValue =
    | Name(name: string)                     // networks
    | StringIndex(key: string)               // ["networks"]
    | IntegerIndex(index: I64)               // [0], [-1]
    | IdentifierIndex(nested: Identifier)    // [boss.id]
    | This                                   // this
    | Super                                  // super

  datatype Identifier = Identifier(values: seq<IdentifierValue>)

  /**
   * `Identifier::is_relative`: an identifier whose first component is
   * `this` or `super` starts from the position instead of the root.
   */
  predicate IsRelative(id: Identifier)
  {
    |id.values| > 0 && (id.values[0].This? || id.values[0].Super?)
  }

  /**
   * No identifier nested in `values` through indirect indices is relative,
   * so resolving `values` never consults the position.
   */
  predicate PositionFree(values: seq<IdentifierValue>)
  {
    forall i :: 0 <= i < |values| ==> ComponentPositionFree(values[i])
  }

  predicate ComponentPositionFree(c: IdentifierValue)
  {
    c.IdentifierIndex? ==> !IsRelative(c.nested) && PositionFree(c.nested.values)
  }
}
