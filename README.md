# balena-temen: the evaluation context and three built-ins

This project models the core of balena-temen, a small expression language
evaluated over a JSON document. It covers three parts:

- **The evaluation context** (`src/engine/context.rs`).
  - The `Lookup` stack machine resolves an identifier such as
    `people[boss.id].name` or `super.name` against the document. A relative
    identifier first replays the caller's position. An indirect index
    (`[boss.id]`) starts a fresh lookup from the root.
  - The context memoises "now": the first request reads the clock and every
    later request in that context returns the same instant.
- **The numeric built-ins** `POW`, `LOG10`, `MAX` and `MIN`
  (`src/builtin/function/math.rs`). This includes their argument-count and
  argument-type checks and their integer-first / float-fallback structure.
- **The `trim` filter** (`src/builtin/filter/trim.rs`).

Modules:

- `Json`: serde_json's `Value` and `Number` and the accessors the core uses.
  An integer is either a u64 or a negative i64. A double is opaque, and
  every floating-point operation comes from a `FloatOps` record.
- `Identifiers`: the shape of the parser's identifiers.
- `Errors`: one error kind per failure message of the core.
- `Resolver`: identifier resolution as functions over the lookup stack.
- `ResolverProperties`: lemmas about those functions.
- `EngineContext`: the classes.
  - `Lookup` updates its stack in place. Its methods are proved to compute
    exactly what `Resolver` specifies.
  - `Internal`, `Context` and `Clock` hold the memoised time.
- `MathFunctions` and `MathProperties`: the numeric built-ins and their
  lemmas.
- `TrimFilter` and `TrimProperties`: the filter and its lemmas.

Nested indirect lookups, and relative identifiers nested inside them, can
recurse without a bound in the source. The model bounds that recursion with
a `fuel` argument. Each indirect step spends one unit. A step taken with no
fuel left fails with `DepthExceeded`. `ResolveFuelMonotone` proves that
fuel changes nothing else: any other outcome stays the same with more fuel.

Two behaviours of the code are easy to misread, and the model follows the
code in both:

- `super` on a stack that holds only the root succeeds and leaves the stack
  empty. The "no parent object" error on the pop at
  `src/engine/context.rs:61-63` can never fire, because lines 39-42 have
  already rejected an empty stack. The lookup fails afterwards instead: with
  "invalid identifier" at the next component (lines 39-42), or with "empty
  stack" at the final read (lines 143-146).
- The comments at `src/engine/context.rs:27-28` and `:212` say the position
  is ignored for an absolute identifier. In fact the position is still
  handed to the identifier's indirect lookups (lines 93 and 140).
  `AbsoluteIgnoresPosition` therefore holds only for identifiers with no
  relative identifier nested in an indirect index, and the model passes the
  position through as the code does.

## Model

| member | source | states |
|---|---|---|
| Json.NumberFromI64 | src/builtin/function/math.rs:79 | `Number::from(i64)` gives a non-negative integer the unsigned representation, and `as_i64` recovers the integer unchanged |
| Json.NumberAsI64 | src/engine/context.rs:99-101 | `as_i64` is defined exactly for negative integers and for unsigned ones up to i64::MAX, and returns the integer itself |
| Json.AsI64 | src/builtin/function/math.rs:77 | defined only on numbers, agreeing with the number's `as_i64` |
| Json.AsU64 | src/builtin/function/math.rs:54 | defined exactly on non-negative integers |
| Json.AsF64 | src/builtin/function/math.rs:83 | defined exactly on numbers; a double is returned as it is |
| Json.AsStr | src/builtin/filter/trim.rs:11 | defined exactly on strings, returning their text |
| Json.AsArray | src/engine/context.rs:67-69 | defined exactly on arrays, returning their elements |
| Json.AsObject | src/engine/context.rs:47-49 | defined exactly on objects, returning their fields |
| Resolver.NormalizeIndex | src/engine/context.rs:71-83 | an index is valid iff -len <= i < len; the position reached is i itself or i + len (one normalisation pass) and lies inside the array |
| Resolver.PushKey | src/engine/context.rs:45-55 | a key step succeeds iff the top is an object holding the key, and then pushes exactly that field's value as a child of the old top |
| Resolver.PushIndex | src/engine/context.rs:65-86 | an index step succeeds iff the top is an array and -len <= i < len, and then pushes the element at the normalised index, a child of the old top |
| Resolver.ApplyComponent | src/engine/context.rs:34-111 | any component fails on an empty stack; `this` keeps the stack; `super` drops exactly the top; every other component pushes one child of the top; the stack stays a chain from the root |
| Resolver.ApplyAll | src/engine/context.rs:139-141 | applying components in order keeps the stack a chain from the root |
| Resolver.StartStack | src/engine/context.rs:124-136 | the starting stack (the root, or the replayed position) is a chain from the root |
| Resolver.Finish | src/engine/context.rs:143-146 | the lookup yields the top of the final stack; an error is passed on, and an emptied stack is the "empty stack" error |
| Resolver.Resolve | src/engine/context.rs:123-147 | a relative identifier without a position fails; an absolute one is resolved from the root alone. RelativeReplaysPosition, AbsoluteIgnoresPosition, SuperPastRootFails, ResolvedWithinRoot and ResolveFuelMonotone state the rest |
| ResolverProperties.KeyStep | src/engine/context.rs:45-55 | `Name` and `StringIndex` are the same step; it fails with "not an object" or "key not found", or pushes the key's value |
| ResolverProperties.IndexStep | src/engine/context.rs:65-86 | an index step on a non-array fails; a negative index is raised by the length once, and the step succeeds iff the result is in [0, len) |
| ResolverProperties.IndexBoundaries | src/engine/context.rs:73-83 | -1 selects the last element and -len the first; -len-1 and len are out of bounds |
| ResolverProperties.ThisAndSuper | src/engine/context.rs:56-64 | `this` leaves the stack unchanged and `super` removes exactly its top entry |
| ResolverProperties.ApplyAllAppend | src/engine/context.rs:133-141 | applying `a + b` is applying `a`, then `b` to the resulting stack, with the first error winning |
| ResolverProperties.EmptyStackAbsorbs | src/engine/context.rs:39-42 | once the stack is empty, every further component fails with "invalid identifier" |
| ResolverProperties.SuperPastRootFails | src/engine/context.rs:59-64 | a lookup whose stack is emptied by `super` at any point never succeeds |
| ResolverProperties.SuperFromRoot | src/engine/context.rs:143-146 | `super` from the root ends with an empty stack; `super.super` fails at its second step |
| ResolverProperties.RelativeNeedsPosition | src/engine/context.rs:126-130 | a relative identifier without a position fails with the missing-position error |
| ResolverProperties.RelativeReplaysPosition | src/engine/context.rs:126-141 | a relative identifier resolves as the position's components followed by its own, from the root; an absolute one resolves its own components from the root |
| ResolverProperties.ApplyAllPositionFree | src/engine/context.rs:133-141 | components with no relative identifier nested in an indirect index give the same result under any position |
| ResolverProperties.ApplyComponentPositionFree | src/engine/context.rs:87-107 | an indirect step whose nested identifier is absolute and position-free does not depend on the position |
| ResolverProperties.AbsoluteIgnoresPosition | src/engine/context.rs:113-123 | an absolute, position-free identifier resolves the same under any position |
| ResolverProperties.IndirectStep | src/engine/context.rs:87-107 | an indirect step resolves the nested identifier from the root and propagates its error; a string result acts as a key step, an i64 number as an index step; any other number, and a null, boolean, array or object, is an error |
| ResolverProperties.ChainWithinRoot | src/engine/context.rs:9-14 | every entry of the lookup stack lies inside the document |
| ResolverProperties.ResolvedWithinRoot | src/engine/context.rs:143-146 | a successful lookup returns a value found inside the document |
| ResolverProperties.ResolveFuelMonotone | src/engine/context.rs:93 | with more fuel, a lookup that did not run out of depth gives the same result |
| ResolverProperties.ApplyAllFuelMonotone | src/engine/context.rs:139-141 | the same, for a sequence of components |
| ResolverProperties.ApplyComponentFuelMonotone | src/engine/context.rs:87-107 | the same, for one component |
| ResolverProperties.FirstIsZero | tests/engine/eval/lookup.rs:168 | in the test document, `first` resolves to 0 |
| ResolverProperties.IndirectFirstStep | tests/engine/eval/lookup.rs:184 | the indirect step `[first]` below `people` pushes the first person |
| ResolverProperties.IndirectIndexExample | tests/engine/eval/lookup.rs:183-184 | `people[first].name` resolves to "Robert" when `first` is 0 |
| ResolverProperties.IndirectIndexBooleanFails | tests/engine/eval/lookup.rs:188 | `people[boolean].name` fails because a boolean is not an index |
| EngineContext.Lookup.constructor | src/engine/context.rs:18-23 | a new lookup's stack holds only the root |
| EngineContext.Lookup.PushByKey | src/engine/context.rs:45-55 | pushes the key's value exactly as `PushKey` specifies and leaves the stack unchanged on failure |
| EngineContext.Lookup.UpdateWithIdentifierValue | src/engine/context.rs:34-111 | the new stack is the one `ApplyComponent` specifies; on failure the error is the same and the stack is unchanged; the stack stays a chain from the root |
| EngineContext.Lookup.LookupIdentifier | src/engine/context.rs:123-147 | the two loops and the final top-of-stack read return exactly `Resolve` |
| EngineContext.Clock.Read | src/engine/context.rs:171 | returns the clock's current time and records one reading |
| EngineContext.Internal.constructor | src/engine/context.rs:157-160 | nothing is cached at first |
| EngineContext.Internal.CachedNow | src/engine/context.rs:166-174 | the first call reads the clock once and caches the reading; later calls return the cached time without reading the clock |
| EngineContext.Context.constructor | src/engine/context.rs:186-191 | a context holds its document and a fresh, empty time cache |
| EngineContext.Context.Default | src/engine/context.rs:218-221 | the default context is over `null` with an empty time cache |
| EngineContext.Context.CachedNow | src/engine/context.rs:201-203 | as `Internal.CachedNow`, through the context's shared cell |
| EngineContext.Context.LookupIdentifier | src/engine/context.rs:213-215 | resolves against the context's document exactly as `Resolve` |
| EngineContext.TimeIsFrozenPerContext | src/engine/context.rs:195-200 | two requests through one context return the same instant even if the clock moves in between, and the clock is read once |
| MathFunctions.ValidateArgsLen | src/builtin/function/math.rs:6-24 | passes iff the count is within both optional bounds; below the minimum the error reports the minimum, above the maximum it reports the maximum |
| MathFunctions.GetArg | src/builtin/function/math.rs:26-33 | succeeds iff the argument exists and converts, returning the converted value; otherwise "invalid argument type" |
| MathFunctions.GetTwoArgs | src/builtin/function/math.rs:35-49 | succeeds iff both of the first two arguments exist and convert; otherwise "invalid argument type" |
| MathFunctions.FloatResult | src/builtin/function/math.rs:59-61 | a finite double becomes a number; NaN or an infinity is an error naming the function |
| MathFunctions.Pow | src/builtin/function/math.rs:51-62 | the arity must be 2; an i64 base with a u64 exponent gives the integer power; otherwise a non-number is a type error and two numbers give the float power or the non-finite error |
| MathFunctions.Log10 | src/builtin/function/math.rs:64-71 | the arity must be 1; a non-number is a type error; a number gives its float log10 or the non-finite error |
| MathFunctions.FoldMaxI64 | src/builtin/function/math.rs:76-78 | the fold succeeds iff every argument is an i64, and then returns the largest of the start value and the arguments |
| MathFunctions.FoldMinI64 | src/builtin/function/math.rs:94-96 | the fold succeeds iff every argument is an i64, and then returns the smallest of the start value and the arguments |
| MathFunctions.FoldF64 | src/builtin/function/math.rs:82-84 | the float fold succeeds iff every argument is a number |
| MathFunctions.Max | src/builtin/function/math.rs:73-89 | no arguments is an arity error; all-i64 arguments give their maximum as an integer; any non-number is "invalid argument"; otherwise the float fold from f64::MIN decides |
| MathFunctions.Min | src/builtin/function/math.rs:91-107 | no arguments is an arity error; all-i64 arguments give their minimum as an integer; any non-number is "invalid argument"; otherwise the float fold from f64::MAX decides |
| MathProperties.ArityErrors | src/builtin/function/math.rs:51-92 | POW rejects every count but 2, LOG10 every count but 1, MAX and MIN an empty list |
| MathProperties.PowIntegerExamples | src/builtin/function/math.rs:200-216 | POW(10, 2) = 100 and POW(7, 3) = 343, as integers |
| MathProperties.PowNonNaturalExponent | src/builtin/function/math.rs:54-61 | a negative or fractional exponent always takes the float path |
| MathProperties.NonNumericArgument | src/builtin/function/math.rs:54-67 | a non-numeric argument to POW (either position) or LOG10 is "invalid argument type" |
| MathProperties.NonNumberFailsMaxMin | src/builtin/function/math.rs:76-102 | a single non-number makes both folds of MAX and MIN fail, so the call fails; it is never skipped |
| MathProperties.MinIntegerExample | src/builtin/function/math.rs:115-125 | MIN(-100, 200, 10000, -1, -10235) = -10235 |
| MathProperties.MaxIntegerExample | src/builtin/function/math.rs:162-172 | MAX(1, 2, 3, 4) = 4 |
| MathProperties.MinWithFloatUsesFloatPass | src/builtin/function/math.rs:139-146 | with one float among the arguments, MIN is the float fold from f64::MAX, in argument order |
| TrimFilter.LeadingWhitespace | src/builtin/filter/trim.rs:13 | the prefix it measures is all whitespace and is followed by a non-whitespace character or the end |
| TrimFilter.TrailingWhitespace | src/builtin/filter/trim.rs:13 | the suffix it measures is all whitespace and is preceded by a non-whitespace character or the start |
| TrimFilter.TrimStr | src/builtin/filter/trim.rs:13 | the result has no whitespace at either end and is the input with only whitespace removed, and only at the ends |
| TrimFilter.Trim | src/builtin/filter/trim.rs:8-16 | succeeds iff the input is a string, returning it trimmed; any other input is the string-only error |
| TrimProperties.TrimUnique | src/builtin/filter/trim.rs:13 | any removal of whitespace at the ends that leaves no whitespace at either end gives the same string as `TrimStr` |
| TrimProperties.TrimKeepsTrimmed | src/builtin/filter/trim.rs:13 | a string with no whitespace at either end is unchanged, so interior whitespace is kept |
| TrimProperties.TrimIdempotent | src/builtin/filter/trim.rs:13 | trimming twice is trimming once |
| TrimProperties.TrimIgnoresArguments | src/builtin/filter/trim.rs:8 | the result does not depend on the named arguments or the context |
| TrimProperties.TrimExample | src/builtin/filter/trim.rs:33 | "    a    " trims to "a" |

## Left out

- The expression parser and evaluator, the registries and the JavaScript binding. They call into the core but are not part of this model. Identifiers are taken as the parser's output, and `is_relative` is modelled as "the first component is `this` or `super`", since the parser's AST is not part of this model.
- Error messages and their annotation lists. Each message is an error kind, and only the annotations callers rely on (function name, counts, missing key) are kept.
- Floating-point arithmetic. Doubles are opaque values, and `powf`, `log10`, `f64::max`/`f64::min`, the integer-to-double conversion and the finiteness test of `Number::from_f64` are uninterpreted functions. Float results (POW(4, 0.5) = 2, LOG10(0) failing, MIN(-10.5, 200, -10) = -10.5) are therefore stated only as "the float path decides".
- MathFunctions.Pow: requires that the exponent fits in u32 and the power fits in i64. The source casts the exponent to u32 with truncation, and its `i64::pow` panics or wraps on overflow; neither behaviour is modelled.
- The `Mutex` and `Arc` around the time cache, and the `Utc::now` system call. The cache is one object shared by reference, and the clock is a `Clock` object passed to the call, which counts its readings. Concurrent access is not modelled.
- The `Clock` constructor and `Clock.Advance` stand for the environment, not for the source. They exist so that `TimeIsFrozenPerContext` can move the clock between two requests.
- The unused `_context` parameter of the numeric built-ins.
- Unbounded nesting of indirect lookups. It is cut off by `fuel`, and `DepthExceeded` has no counterpart in the source. `ResolveFuelMonotone` shows that fuel is the only difference.
- `Value` borrowing: the source's stack holds references into the document, while the model's stack holds the values themselves. No aliasing question arises, because the document is never mutated.
