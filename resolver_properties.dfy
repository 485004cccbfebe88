/**
 * What identifier resolution promises, proved about the functions of
 * module Resolver.
 */
module ResolverProperties {
  import opened Wrappers
  import opened Errors
  import opened Json
  import opened Identifiers
  import opened Resolver

  /**
   * A key step fails on a top that is not an object and on a missing key;
   * otherwise it pushes the value under the key. `Name` and `StringIndex`
   * are the same step.
   */
  lemma KeyStep(root: Value, stack: seq<Value>, key: string, position: Option<Identifier>, fuel: nat)
    requires stack != []
    ensures ApplyComponent(root, stack, Name(key), position, fuel)
         == ApplyComponent(root, stack, StringIndex(key), position, fuel)
    ensures !Top(stack).Object? ==> ApplyComponent(root, stack, Name(key), position, fuel) == Err(NotAnObject)
    ensures Top(stack).Object? && key !in Top(stack).fields ==>
              ApplyComponent(root, stack, Name(key), position, fuel) == Err(KeyNotFound(key))
    ensures Top(stack).Object? && key in Top(stack).fields ==>
              ApplyComponent(root, stack, Name(key), position, fuel) == Ok(stack + [Top(stack).fields[key]])
  {
  }

  /**
   * An index step fails on a top that is not an array. A negative index is
   * moved up by the length once; the step succeeds exactly when the result
   * lies in [0, len), and then pushes that element.
   */
  lemma IndexStep(root: Value, stack: seq<Value>, index: I64, position: Option<Identifier>, fuel: nat)
    requires stack != []
    ensures !Top(stack).Array? ==> ApplyComponent(root, stack, IntegerIndex(index), position, fuel) == Err(NotAnArray)
    ensures Top(stack).Array? ==>
      var items := Top(stack).items;
      var adjusted := if index < 0 then index + |items| else index;
      ApplyComponent(root, stack, IntegerIndex(index), position, fuel)
        == if 0 <= adjusted < |items| then Ok(stack + [items[adjusted]]) else Err(IndexOutOfBounds)
  {
  }

  /**
   * On an array of length n: -1 is the last element, -n the first, and
   * both -n-1 and n are out of bounds (a negative index is normalised once).
   */
  lemma IndexBoundaries(root: Value, stack: seq<Value>, position: Option<Identifier>, fuel: nat)
    requires stack != [] && Top(stack).Array? && 0 < |Top(stack).items| <= I64_MAX
    ensures var items := Top(stack).items; var n := |items|;
      && ApplyComponent(root, stack, IntegerIndex(-1), position, fuel) == Ok(stack + [items[n - 1]])
      && ApplyComponent(root, stack, IntegerIndex(-n), position, fuel) == Ok(stack + [items[0]])
      && ApplyComponent(root, stack, IntegerIndex(-n - 1), position, fuel) == Err(IndexOutOfBounds)
      && ApplyComponent(root, stack, IntegerIndex(n), position, fuel) == Err(IndexOutOfBounds)
  {
    IndexStep(root, stack, -1, position, fuel);
  }

  /** `This` never changes the stack and `Super` removes exactly its top entry. */
  lemma ThisAndSuper(root: Value, stack: seq<Value>, position: Option<Identifier>, fuel: nat)
    requires stack != []
    ensures ApplyComponent(root, stack, This, position, fuel) == Ok(stack)
    ensures ApplyComponent(root, stack, Super, position, fuel) == Ok(stack[..|stack| - 1])
  {
  }

  /** Applying `a + b` is applying `a`, then `b` to the stack `a` left. */
  lemma {:induction false} ApplyAllAppend(root: Value, stack: seq<Value>, a: seq<IdentifierValue>,
                                          b: seq<IdentifierValue>, position: Option<Identifier>, fuel: nat)
    ensures ApplyAll(root, stack, a + b, position, fuel)
         == match ApplyAll(root, stack, a, position, fuel)
            case Err(e) => Err(e)
            case Ok(mid) => ApplyAll(root, mid, b, position, fuel)
    decreases |a|
  {
    if a == [] {
      assert a + b == b;
    } else {
      assert (a + b)[0] == a[0];
      assert (a + b)[1..] == a[1..] + b;
      match ApplyComponent(root, stack, a[0], position, fuel)
      case Err(e) =>
      case Ok(next) => ApplyAllAppend(root, next, a[1..], b, position, fuel);
    }
  }

  /** Once the stack is empty, any further component fails. */
  lemma EmptyStackAbsorbs(root: Value, cs: seq<IdentifierValue>, position: Option<Identifier>, fuel: nat)
    ensures ApplyAll(root, [], cs, position, fuel) == if cs == [] then Ok([]) else Err(InvalidIdentifier)
  {
  }

  /**
   * A lookup whose stack is emptied (by `super` past the root) after any
   * prefix of its components never succeeds.
   */
  lemma SuperPastRootFails(root: Value, id: Identifier, position: Option<Identifier>, fuel: nat, k: nat)
    requires k <= |id.values|
    requires StartStack(root, id, position, fuel).Ok?
    requires ApplyAll(root, StartStack(root, id, position, fuel).value, id.values[..k], position, fuel) == Ok([])
    ensures Resolve(root, id, position, fuel).Err?
  {
    var start := StartStack(root, id, position, fuel).value;
    assert id.values == id.values[..k] + id.values[k..];
    ApplyAllAppend(root, start, id.values[..k], id.values[k..], position, fuel);
    EmptyStackAbsorbs(root, id.values[k..], position, fuel);
  }

  /** `super` straight from the root empties the stack; a second `super` has nothing left to pop. */
  lemma SuperFromRoot(root: Value, fuel: nat)
    ensures Resolve(root, Identifier([Super]), Some(Identifier([])), fuel) == Err(EmptyStack)
    ensures Resolve(root, Identifier([Super, Super]), Some(Identifier([])), fuel) == Err(InvalidIdentifier)
  {
    var position := Some(Identifier([]));
    assert ApplyAll(root, [root], [], position, fuel) == Ok([root]);
    assert StartStack(root, Identifier([Super]), position, fuel) == Ok([root]);
    assert StartStack(root, Identifier([Super, Super]), position, fuel) == Ok([root]);
    assert ApplyComponent(root, [root], Super, position, fuel) == Ok([]);
    assert ApplyAll(root, [root], [Super], position, fuel) == ApplyAll(root, [], [], position, fuel);
    assert [Super, Super][1..] == [Super];
    assert ApplyAll(root, [root], [Super, Super], position, fuel) == ApplyAll(root, [], [Super], position, fuel);
  }

  /** A relative identifier cannot be looked up without a position. */
  lemma RelativeNeedsPosition(root: Value, id: Identifier, fuel: nat)
    requires IsRelative(id)
    ensures Resolve(root, id, None, fuel) == Err(RelativeWithoutPosition)
  {
  }

  /**
   * A relative identifier resolves as the position's components followed by
   * its own, applied to the root; an absolute one starts from the root alone.
   */
  lemma RelativeReplaysPosition(root: Value, id: Identifier, p: Identifier, fuel: nat)
    ensures IsRelative(id) ==>
      Resolve(root, id, Some(p), fuel) == Finish(ApplyAll(root, [root], p.values + id.values, Some(p), fuel))
    ensures !IsRelative(id) ==>
      Resolve(root, id, Some(p), fuel) == Finish(ApplyAll(root, [root], id.values, Some(p), fuel))
  {
    ApplyAllAppend(root, [root], p.values, id.values, Some(p), fuel);
  }

  /** Resolving position-free components gives the same result under any position. */
  lemma {:induction false} ApplyAllPositionFree(root: Value, stack: seq<Value>, cs: seq<IdentifierValue>,
                                                p1: Option<Identifier>, p2: Option<Identifier>, fuel: nat)
    requires PositionFree(cs)
    ensures ApplyAll(root, stack, cs, p1, fuel) == ApplyAll(root, stack, cs, p2, fuel)
    decreases fuel, 1, |cs|
  {
    if cs != [] {
      ApplyComponentPositionFree(root, stack, cs[0], p1, p2, fuel);
      match ApplyComponent(root, stack, cs[0], p1, fuel)
      case Err(_) =>
      case Ok(next) => ApplyAllPositionFree(root, next, cs[1..], p1, p2, fuel);
    }
  }

  lemma {:induction false} ApplyComponentPositionFree(root: Value, stack: seq<Value>, c: IdentifierValue,
                                                      p1: Option<Identifier>, p2: Option<Identifier>, fuel: nat)
    requires ComponentPositionFree(c)
    ensures ApplyComponent(root, stack, c, p1, fuel) == ApplyComponent(root, stack, c, p2, fuel)
    decreases fuel, 0, Rank(c)
  {
    if stack != [] && c.IdentifierIndex? && fuel > 0 {
      AbsoluteIgnoresPosition(root, c.nested, p1, p2, fuel - 1);
      IndirectStep(root, stack, c.nested, p1, fuel - 1);
      IndirectStep(root, stack, c.nested, p2, fuel - 1);
      var inner := Resolve(root, c.nested, p1, fuel - 1);
      if inner.Ok? && inner.value.String? {
        ApplyComponentPositionFree(root, stack, StringIndex(inner.value.s), p1, p2, fuel - 1);
      } else if inner.Ok? && inner.value.Number? && NumberAsI64(inner.value.n).Some? {
        ApplyComponentPositionFree(root, stack, IntegerIndex(NumberAsI64(inner.value.n).value), p1, p2, fuel - 1);
      }
    } else if stack != [] && c.IdentifierIndex? {
      assert fuel == 0;
    }
  }

  /**
   * An absolute identifier with no relative identifier nested in its
   * indirect indices does not depend on the position. (Absolute
   * identifiers still hand the position to their indirect lookups.)
   */
  lemma {:induction false} AbsoluteIgnoresPosition(root: Value, id: Identifier, p1: Option<Identifier>,
                                                   p2: Option<Identifier>, fuel: nat)
    requires !IsRelative(id) && PositionFree(id.values)
    ensures Resolve(root, id, p1, fuel) == Resolve(root, id, p2, fuel)
    decreases fuel, 3
  {
    ApplyAllPositionFree(root, [root], id.values, p1, p2, fuel);
  }

  /**
   * An indirect step looks `nested` up from the root, independently of the
   * current stack, and then acts as a key step for a string, as an index
   * step for an i64 number, and fails for any other value.
   */
  lemma IndirectStep(root: Value, stack: seq<Value>, nested: Identifier, position: Option<Identifier>, fuel: nat)
    requires stack != []
    ensures var inner := Resolve(root, nested, position, fuel);
            var step := ApplyComponent(root, stack, IdentifierIndex(nested), position, fuel + 1);
      && (inner.Err? ==> step == Err(inner.error))
      && (inner.Ok? && inner.value.String? ==>
            step == ApplyComponent(root, stack, StringIndex(inner.value.s), position, fuel))
      && (inner.Ok? && inner.value.Number? && NumberAsI64(inner.value.n).Some? ==>
            step == ApplyComponent(root, stack, IntegerIndex(NumberAsI64(inner.value.n).value), position, fuel))
      && (inner.Ok? && inner.value.Number? && NumberAsI64(inner.value.n).None? ==>
            step == Err(InvalidIntegerIndex))
      && (inner.Ok? && (inner.value.Null? || inner.value.Bool? || inner.value.Array? || inner.value.Object?) ==>
            step == Err(InvalidIndirectIndex))
  {
  }

  /** Every entry of a chain lies within the root. */
  lemma {:induction false} ChainWithinRoot(root: Value, stack: seq<Value>, i: nat)
    requires IsChain(root, stack) && i < |stack|
    ensures Within(root, stack[i])
  {
    if i == 0 {
      assert Follow(root, []) == Some(root);
    } else {
      ChainWithinRoot(root, stack, i - 1);
      ChildWithin(root, stack[i - 1], stack[i]);
    }
  }

  /** A successful lookup returns a value found inside the document. */
  lemma ResolvedWithinRoot(root: Value, id: Identifier, position: Option<Identifier>, fuel: nat)
    requires Resolve(root, id, position, fuel).Ok?
    ensures Within(root, Resolve(root, id, position, fuel).value)
  {
    var start := StartStack(root, id, position, fuel).value;
    var s := ApplyAll(root, start, id.values, position, fuel).value;
    ChainWithinRoot(root, s, |s| - 1);
  }

  /**
   * The fuel only bounds the depth of indirect lookups: a result other than
   * `DepthExceeded` stays the same with any amount of extra fuel.
   */
  lemma {:induction false} ResolveFuelMonotone(root: Value, id: Identifier, position: Option<Identifier>,
                                               fuel: nat, more: nat)
    requires Resolve(root, id, position, fuel) != Err(DepthExceeded)
    ensures Resolve(root, id, position, fuel + more) == Resolve(root, id, position, fuel)
    decreases fuel, 3
  {
    if IsRelative(id) && position.Some? {
      ApplyAllFuelMonotone(root, [root], position.value.values, position, fuel, more);
    }
    match StartStack(root, id, position, fuel)
    case Err(_) =>
    case Ok(start) => ApplyAllFuelMonotone(root, start, id.values, position, fuel, more);
  }

  lemma {:induction false} ApplyAllFuelMonotone(root: Value, stack: seq<Value>, cs: seq<IdentifierValue>,
                                                position: Option<Identifier>, fuel: nat, more: nat)
    requires ApplyAll(root, stack, cs, position, fuel) != Err(DepthExceeded)
    ensures ApplyAll(root, stack, cs, position, fuel + more) == ApplyAll(root, stack, cs, position, fuel)
    decreases fuel, 1, |cs|
  {
    if cs != [] {
      ApplyComponentFuelMonotone(root, stack, cs[0], position, fuel, more);
      match ApplyComponent(root, stack, cs[0], position, fuel)
      case Err(_) =>
      case Ok(next) => ApplyAllFuelMonotone(root, next, cs[1..], position, fuel, more);
    }
  }

  lemma {:induction false} ApplyComponentFuelMonotone(root: Value, stack: seq<Value>, c: IdentifierValue,
                                                      position: Option<Identifier>, fuel: nat, more: nat)
    requires ApplyComponent(root, stack, c, position, fuel) != Err(DepthExceeded)
    ensures ApplyComponent(root, stack, c, position, fuel + more) == ApplyComponent(root, stack, c, position, fuel)
    decreases fuel, 0, Rank(c)
  {
    if stack != [] && c.IdentifierIndex? {
      assert fuel > 0;
      ResolveFuelMonotone(root, c.nested, position, fuel - 1, more);
      assert fuel + more - 1 == fuel - 1 + more;
      match Resolve(root, c.nested, position, fuel - 1)
      case Err(_) =>
      case Ok(v) =>
        if v.String? {
          ApplyComponentFuelMonotone(root, stack, StringIndex(v.s), position, fuel, more);
        } else if v.Number? && NumberAsI64(v.n).Some? {
          ApplyComponentFuelMonotone(root, stack, IntegerIndex(NumberAsI64(v.n).value), position, fuel, more);
        }
    }
  }

  /** A document with two people and three candidate indirect indices. */
  function PeopleDocument(): Value
  {
    Object(map[
      "first" := Number(PosInt(0)),
      "second" := Number(PosInt(1)),
      "boolean" := Bool(true),
      "people" := Array([Object(map["name" := String("Robert")]), Object(map["name" := String("Cyryl")])])])
  }

  /** The indirect index `first` of `people[first].name` resolves to 0. */
  lemma FirstIsZero()
    ensures Resolve(PeopleDocument(), Identifier([Name("first")]), None, 0) == Ok(Number(PosInt(0)))
  {
    var root := PeopleDocument();
    var zero := Number(PosInt(0));
    assert root.fields["first"] == zero;
    KeyStep(root, [root], "first", None, 0);
    assert [root] + [zero] == [root, zero];
    assert ApplyAll(root, [root], [Name("first")], None, 0) == Ok([root, zero]);
  }

  /** The indirect step `[first]` on the stack down to `people` pushes the first person. */
  lemma IndirectFirstStep()
    ensures ApplyComponent(PeopleDocument(), [PeopleDocument(), PeopleDocument().fields["people"]],
                           IdentifierIndex(Identifier([Name("first")])), None, 1)
         == Ok([PeopleDocument(), PeopleDocument().fields["people"], PeopleDocument().fields["people"].items[0]])
  {
    var root := PeopleDocument();
    var people := root.fields["people"];
    FirstIsZero();
    IndexStep(root, [root, people], 0, None, 1);
    assert [root, people] + [people.items[0]] == [root, people, people.items[0]];
  }

  /** `people[first].name` is "Robert": the indirect index `first` resolves to 0. */
  lemma IndirectIndexExample()
    ensures Resolve(PeopleDocument(), Identifier([Name("people"), IdentifierIndex(Identifier([Name("first")])), Name("name")]),
                    None, 1)
         == Ok(String("Robert"))
  {
    var root := PeopleDocument();
    var people := root.fields["people"];
    var robert := people.items[0];
    assert robert == Object(map["name" := String("Robert")]);
    var cs := [Name("people"), IdentifierIndex(Identifier([Name("first")])), Name("name")];
    KeyStep(root, [root], "people", None, 1);
    assert ApplyComponent(root, [root], cs[0], None, 1) == Ok([root, people]) by {
      assert [root] + [people] == [root, people];
    }
    IndirectFirstStep();
    KeyStep(root, [root, people, robert], "name", None, 1);
    var last := [root, people, robert] + [String("Robert")];
    assert cs[1..] == [cs[1], cs[2]] && cs[1..][1..] == [cs[2]] && [cs[2]][1..] == [];
    assert ApplyAll(root, [root, people, robert], [cs[2]], None, 1) == Ok(last);
    assert ApplyAll(root, [root, people], cs[1..], None, 1) == Ok(last);
  }

  /** `people[boolean].name` fails: an indirect index must resolve to a string or a number. */
  lemma IndirectIndexBooleanFails()
    ensures Resolve(PeopleDocument(), Identifier([Name("people"), IdentifierIndex(Identifier([Name("boolean")])), Name("name")]),
                    None, 1)
         == Err(InvalidIndirectIndex)
  {
    var root := PeopleDocument();
    var people := root.fields["people"];
    assert root.fields["boolean"] == Bool(true);
    KeyStep(root, [root], "boolean", None, 0);
    assert [root] + [Bool(true)] == [root, Bool(true)];
    assert ApplyAll(root, [root], [Name("boolean")], None, 0) == Ok([root, Bool(true)]);
    assert Resolve(root, Identifier([Name("boolean")]), None, 0) == Ok(Bool(true));
    KeyStep(root, [root], "people", None, 1);
    assert [root] + [people] == [root, people];
    var cs := [Name("people"), IdentifierIndex(Identifier([Name("boolean")])), Name("name")];
    assert ApplyComponent(root, [root, people], cs[1], None, 1) == Err(InvalidIndirectIndex);
    assert cs[1..] == [cs[1], cs[2]];
  }
}
