/**
 * The evaluation context (src/engine/context.rs): the `Lookup` stack
 * machine that resolves identifiers, the memoised clock reading, and the
 * `Context` that owns both the document and that memo cell.
 *
 * `Lookup` updates its stack in place; each method is proved to leave the
 * stack that module Resolver specifies. The clock is an object of its own,
 * so that whether the clock was read at all is part of the state.
 */
module EngineContext {
  import opened Wrappers
  import opened Errors
  import opened Json
  import opened Identifiers
  import opened Resolver

  /** A stack of values of one document, seeded with the document's root. */
  class Lookup {
    const root: Value
    var stack: seq<Value>

    /** The stack runs down from the root, each entry a child of the one below. */
    ghost predicate Valid()
      reads this
    {
      IsChain(root, stack)
    }

    /** `Lookup::new` */
    constructor (root: Value)
      ensures this.root == root && stack == [root]
      ensures Valid()
    {
      this.root := root;
      stack := [root];
    }

    /** Push the value under `key` of the object `last`. */
    method PushByKey(last: Value, key: string) returns (r: Outcome)
      requires Valid() && stack != [] && last == Top(stack)
      modifies this
      ensures Valid()
      ensures match PushKey(old(stack), key)
              case Ok(s) => r == Pass && stack == s
              case Err(e) => r == Fail(e) && stack == old(stack)
    {
      match AsObject(last) {
        case None =>
          return Fail(NotAnObject);
        case Some(fields) =>
          if key !in fields {
            return Fail(KeyNotFound(key));
          }
          stack := stack + [fields[key]];
          return Pass;
      }
    }

    /**
     * `Lookup::update_with_identifier_value`: apply one identifier
     * component to the stack. On failure the stack is left as it was.
     */
    method UpdateWithIdentifierValue(c: IdentifierValue, position: Option<Identifier>, fuel: nat) returns (r: Outcome)
      requires Valid()
      modifies this
      ensures Valid()
      ensures match ApplyComponent(root, old(stack), c, position, fuel)
              case Ok(s) => r == Pass && stack == s
              case Err(e) => r == Fail(e) && stack == old(stack)
      decreases fuel, 0, Rank(c)
    {
      if stack == [] {
        return Fail(InvalidIdentifier);
      }
      var last := stack[|stack| - 1];
      match c {
        case Name(key) =>
          r := PushByKey(last, key);
        case StringIndex(key) =>
          r := PushByKey(last, key);
        case This =>
          r := Pass;
        case Super =>
          stack := stack[..|stack| - 1];
          r := Pass;
        case IntegerIndex(idx) =>
          match AsArray(last) {
            case None =>
              return Fail(NotAnArray);
            case Some(items) =>
              var index: int := idx;
              if index < 0 {
                index := index + |items|;
              }
              if index < 0 {
                return Fail(IndexOutOfBounds);
              }
              if index >= |items| {
                return Fail(IndexOutOfBounds);
              }
              stack := stack + [items[index]];
              r := Pass;
          }
        case IdentifierIndex(nested) =>
          if fuel == 0 {
            return Fail(DepthExceeded);
          }
          // A fresh lookup from the root; this stack is not touched by it.
          var inner := LookupIdentifier(root, nested, position, fuel - 1);
          match inner {
            case Err(e) =>
              return Fail(e);
            case Ok(String(key)) =>
              r := UpdateWithIdentifierValue(StringIndex(key), position, fuel);
            case Ok(Number(n)) =>
              match NumberAsI64(n) {
                case None =>
                  return Fail(InvalidIntegerIndex);
                case Some(index) =>
                  r := UpdateWithIdentifierValue(IntegerIndex(index), position, fuel);
              }
            case Ok(_) =>
              return Fail(InvalidIndirectIndex);
          }
      }
    }

    /**
     * `Lookup::lookup_identifier`: replay the position for a relative
     * identifier, then apply the identifier's own components, and return
     * the value on top of the stack.
     */
    static method LookupIdentifier(root: Value, id: Identifier, position: Option<Identifier>, fuel: nat)
      returns (r: Result<Value>)
      ensures r == Resolve(root, id, position, fuel)
      decreases fuel, 3
    {
      var lookup := new Lookup(root);

      if IsRelative(id) {
        if position.None? {
          return Err(RelativeWithoutPosition);
        }
        var p := position.value;
        for i := 0 to |p.values|
          invariant lookup.root == root && lookup.Valid()
          invariant ApplyAll(root, [root], p.values, position, fuel)
                 == ApplyAll(root, lookup.stack, p.values[i..], position, fuel)
        {
          assert p.values[i..][1..] == p.values[i + 1..];
          var step := lookup.UpdateWithIdentifierValue(p.values[i], Some(p), fuel);
          if step.Fail? {
            return Err(step.error);
          }
        }
      }

      ghost var start := lookup.stack;
      assert StartStack(root, id, position, fuel) == Ok(start);
      for i := 0 to |id.values|
        invariant lookup.root == root && lookup.Valid()
        invariant ApplyAll(root, start, id.values, position, fuel)
               == ApplyAll(root, lookup.stack, id.values[i..], position, fuel)
      {
        assert id.values[i..][1..] == id.values[i + 1..];
        var step := lookup.UpdateWithIdentifierValue(id.values[i], position, fuel);
        if step.Fail? {
          return Err(step.error);
        }
      }

      if lookup.stack == [] {
        return Err(EmptyStack);
      }
      return Ok(lookup.stack[|lookup.stack| - 1]);
    }
  }

  /**
   * The wall clock that `Utc::now()` reads. `now` is its current reading,
   * moved only by the environment (`Advance`); `readings` counts how often it was read.
   * Only `Read` stands for the source; the constructor and `Advance` play the
   * environment, so that `TimeIsFrozenPerContext` can move the clock.
   */
  class Clock {
    var now: int
    var readings: nat

    constructor (start: int)
      ensures now == start && readings == 0
    {
      now := start;
      readings := 0;
    }

    method Read() returns (t: int)
      modifies this
      ensures t == now && now == old(now) && readings == old(readings) + 1
    {
      t := now;
      readings := readings + 1;
    }

    method Advance(d: nat)
      modifies this
      ensures now == old(now) + d && readings == old(readings)
    {
      now := now + d;
    }
  }

  /** The mutable part of a context: the memoised "current time". */
  class Internal {
    var cachedNow: Option<int>

    /** `Internal::default`: nothing cached yet. */
    constructor ()
      ensures cachedNow == None
    {
      cachedNow := None;
    }

    /**
     * `Internal::cached_now`: the first call reads the clock and stores the
     * reading; every later call returns the stored reading without reading
     * the clock.
     */
    method CachedNow(clock: Clock) returns (t: int)
      modifies this, clock
      ensures old(cachedNow).Some? ==>
                t == old(cachedNow).value && cachedNow == old(cachedNow) && unchanged(clock)
      ensures old(cachedNow).None? ==>
                t == old(clock.now) && cachedNow == Some(t) &&
                clock.now == old(clock.now) && clock.readings == old(clock.readings) + 1
    {
      if cachedNow.Some? {
        return cachedNow.value;
      }
      t := clock.Read();
      cachedNow := Some(t);
    }
  }

  /** `Context`: the document (read-only) and the shared memo cell. */
  class Context {
    const data: Value
    const internal: Internal

    /** `Context::new` */
    constructor (data: Value)
      ensures this.data == data
      ensures fresh(internal) && internal.cachedNow == None
    {
      this.data := data;
      internal := new Internal();
    }

    /** `Context::default`: a context over `null`. */
    constructor Default()
      ensures data == Null
      ensures fresh(internal) && internal.cachedNow == None
    {
      data := Null;
      internal := new Internal();
    }

    /** `Context::cached_now`: the time is frozen at the first reading. */
    method CachedNow(clock: Clock) returns (t: int)
      modifies internal, clock
      ensures old(internal.cachedNow).Some? ==>
                t == old(internal.cachedNow).value && internal.cachedNow == old(internal.cachedNow) &&
                unchanged(clock)
      ensures old(internal.cachedNow).None? ==>
                t == old(clock.now) && internal.cachedNow == Some(t) &&
                clock.now == old(clock.now) && clock.readings == old(clock.readings) + 1
    {
      t := internal.CachedNow(clock);
    }

    /** `Context::lookup_identifier`: resolve against this context's document. */
    method LookupIdentifier(id: Identifier, position: Option<Identifier>, fuel: nat) returns (r: Result<Value>)
      ensures r == Resolve(data, id, position, fuel)
    {
      r := Lookup.LookupIdentifier(data, id, position, fuel);
    }
  }

  /**
   * Two readings through one context agree even when the clock moves in
   * between, and only the first one reads the clock.
   */
  method TimeIsFrozenPerContext(ctx: Context, clock: Clock, d: nat) returns (t1: int, t2: int)
    requires ctx.internal.cachedNow == None
    modifies ctx.internal, clock
    ensures t1 == t2 == old(clock.now)
    ensures clock.readings == old(clock.readings) + 1
  {
    t1 := ctx.CachedNow(clock);
    clock.Advance(d);
    t2 := ctx.CachedNow(clock);
  }
}
