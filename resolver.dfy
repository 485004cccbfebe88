/**
 * What identifier resolution computes (src/engine/context.rs, `Lookup`),
 * as functions over the lookup stack. The imperative `Lookup` class in
 * module EngineContext is proved to compute exactly these.
 *
 * The stack holds values of the document; its first entry is the root and
 * each further entry is a direct child of the one below it (`IsChain`).
 *
 * Indirect indices restart a whole resolution, and a relative identifier
 * nested in the position replays that position again, so the source can
 * recurse without bound. `fuel` bounds the nesting depth of indirect
 * lookups: each `IdentifierIndex` step spends one unit, and a step taken
 * with none left fails with `DepthExceeded`.
 */
module Resolver {
  import opened Wrappers
  import opened Errors
  import opened Json
  import opened Identifiers

  function Top(stack: seq<Value>): Value
    requires stack != []
  {
    stack[|stack| - 1]
  }

  /** The stack is a path down from `root`: each entry a direct child of the one below. */
  predicate IsChain(root: Value, stack: seq<Value>)
  {
    (stack != [] ==> stack[0] == root) &&
    forall i :: 0 < i < |stack| ==> IsChild(stack[i - 1], stack[i])
  }

  /** `after` is `before` with one more entry on top, a direct child of the old top. */
  predicate PushedChild(before: seq<Value>, after: seq<Value>)
  {
    before != [] && |after| == |before| + 1 && after[..|before|] == before &&
    IsChild(Top(before), Top(after))
  }

  /**
   * Position in the array of an index after the one normalisation of a
   * negative index (-1 is the last element); None when out of bounds.
   */
  function NormalizeIndex(index: int, len: nat): (r: Option<nat>)
    ensures r.Some? <==> -(len as int) <= index < len
    ensures r.Some? ==> r.value < len && (r.value == index || r.value == index + len)
  {
    var i := if index < 0 then index + len else index;
    if i < 0 || i >= len then None else Some(i)
  }

  /** `Name` and `StringIndex` step: push the value under `key` of the top object. */
  function PushKey(stack: seq<Value>, key: string): (r: Result<seq<Value>>)
    requires stack != []
    ensures r.Ok? <==> Top(stack).Object? && key in Top(stack).fields
    ensures r.Ok? ==> PushedChild(stack, r.value) && Top(r.value) == Top(stack).fields[key]
  {
    var top := Top(stack);
    match AsObject(top)
    case None => Err(NotAnObject)
    case Some(fields) =>
      if key in fields then Ok(stack + [fields[key]]) else Err(KeyNotFound(key))
  }

  /** `IntegerIndex` step: push the element at the normalised index of the top array. */
  function PushIndex(stack: seq<Value>, index: int): (r: Result<seq<Value>>)
    requires stack != []
    ensures r.Ok? <==> Top(stack).Array? && -(|Top(stack).items| as int) <= index < |Top(stack).items|
    ensures r.Ok? ==> PushedChild(stack, r.value)
    ensures r.Ok? ==> Top(r.value) == Top(stack).items[NormalizeIndex(index, |Top(stack).items|).value]
  {
    var top := Top(stack);
    match AsArray(top)
    case None => Err(NotAnArray)
    case Some(items) =>
      match NormalizeIndex(index, |items|)
      case None => Err(IndexOutOfBounds)
      case Some(i) => Ok(stack + [items[i]])
  }

  /** Orders the re-application of an indirect result below the indirect step itself. */
  function Rank(c: IdentifierValue): nat
  {
    if c.IdentifierIndex? then 1 else 0
  }

  /**
   * `Lookup::update_with_identifier_value`: the stack after one component,
   * or the error that stops the lookup.
   */
  function ApplyComponent(root: Value, stack: seq<Value>, c: IdentifierValue,
                          position: Option<Identifier>, fuel: nat): (r: Result<seq<Value>>)
    decreases fuel, 0, Rank(c)
    ensures stack == [] ==> r == Err(InvalidIdentifier)
    ensures r.Ok? && c.This? ==> r.value == stack
    ensures r.Ok? && c.Super? ==> r.value == stack[..|stack| - 1]
    ensures r.Ok? && !c.This? && !c.Super? ==> PushedChild(stack, r.value)
    ensures r.Ok? && IsChain(root, stack) ==> IsChain(root, r.value)
  {
    if stack == [] then Err(InvalidIdentifier)
    else
      match c
      case Name(key) => PushKey(stack, key)
      case StringIndex(key) => PushKey(stack, key)
      case This => Ok(stack)
      case Super => Ok(stack[..|stack| - 1])
      case IntegerIndex(index) => PushIndex(stack, index)
      case IdentifierIndex(nested) =>
        if fuel == 0 then Err(DepthExceeded)
        else
          match Resolve(root, nested, position, fuel - 1)
          case Err(e) => Err(e)
          case Ok(String(key)) => ApplyComponent(root, stack, StringIndex(key), position, fuel)
          case Ok(Number(n)) =>
            (match NumberAsI64(n)
             case None => Err(InvalidIntegerIndex)
             case Some(index) => ApplyComponent(root, stack, IntegerIndex(index), position, fuel))
          case Ok(_) => Err(InvalidIndirectIndex)
  }

  /** The components `cs` applied left to right, stopping at the first error. */
  function ApplyAll(root: Value, stack: seq<Value>, cs: seq<IdentifierValue>,
                    position: Option<Identifier>, fuel: nat): (r: Result<seq<Value>>)
    decreases fuel, 1, |cs|
    ensures r.Ok? && IsChain(root, stack) ==> IsChain(root, r.value)
  {
    if cs == [] then Ok(stack)
    else
      match ApplyComponent(root, stack, cs[0], position, fuel)
      case Err(e) => Err(e)
      case Ok(next) => ApplyAll(root, next, cs[1..], position, fuel)
  }

  /**
   * The stack a lookup of `id` starts from: the root alone for an absolute
   * identifier, the position replayed from the root for a relative one.
   */
  function StartStack(root: Value, id: Identifier, position: Option<Identifier>, fuel: nat): (r: Result<seq<Value>>)
    decreases fuel, 2
    ensures r.Ok? ==> IsChain(root, r.value)
  {
    if !IsRelative(id) then Ok([root])
    else
      match position
      case None => Err(RelativeWithoutPosition)
      case Some(p) => ApplyAll(root, [root], p.values, position, fuel)
  }

  /** The value on top of the final stack; an emptied stack is an error. */
  function Finish(stack: Result<seq<Value>>): (r: Result<Value>)
    ensures r.Ok? <==> stack.Ok? && stack.value != []
    ensures r.Ok? ==> r.value == Top(stack.value)
    ensures stack.Err? ==> r == Err(stack.error)
    ensures stack == Ok([]) ==> r == Err(EmptyStack)
  {
    match stack
    case Err(e) => Err(e)
    case Ok(s) => if s == [] then Err(EmptyStack) else Ok(Top(s))
  }

  /** `Lookup::lookup_identifier` */
  function Resolve(root: Value, id: Identifier, position: Option<Identifier>, fuel: nat): (r: Result<Value>)
    decreases fuel, 3
    ensures IsRelative(id) && position.None? ==> r == Err(RelativeWithoutPosition)
    ensures !IsRelative(id) ==> r == Finish(ApplyAll(root, [root], id.values, position, fuel))
  {
    match StartStack(root, id, position, fuel)
    case Err(e) => Err(e)
    case Ok(start) => Finish(ApplyAll(root, start, id.values, position, fuel))
  }
}
