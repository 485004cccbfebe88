/**
 * The engine's error value. The source builds errors from a message and a
 * list of (key, value) annotations; here each message is a kind, and the
 * annotations that matter to callers (function name, argument count,
 * expected count, missing key) are fields of that kind.
 */
module Errors {

  datatype Error =
    // Identifier resolution (src/engine/context.rs)
    | InvalidIdentifier          // a component was applied to an empty stack
    | NotAnObject                // key step on a value that is not an object
    | KeyNotFound(key: string)   // key step on an object without that key
    | NotAnArray                 // index step on a value that is not an array
    | IndexOutOfBounds           // index outside the array after normalisation
    | InvalidIntegerIndex        // indirect result is a number that is not an i64
    | InvalidIndirectIndex       // indirect result is neither a string nor a number
    | RelativeWithoutPosition    // relative identifier looked up without a position
    | EmptyStack                 // every component applied, but nothing is left on the stack
    | DepthExceeded              // indirect lookups nested deeper than the model's fuel
    // Built-in functions (src/builtin/function/math.rs)
    | InvalidArgCount(name: string, count: nat, expected: nat)
    | InvalidArgType             // "invalid argument type": missing or ill-typed argument
    | InvalidArgument            // "invalid argument": a non-numeric argument in a fold
    | NotFinite(name: string)     // the floating-point result is NaN or infinite
    // Built-in filters (src/builtin/filter/trim.rs)
    | FilterExpectsString(filter: string)

  datatype Result<+T> = Ok(value: T) | Err(error: Error)

  /** A result without a value, as Rust's `Result<()>`. */
  datatype Outcome = Pass | Fail(error: Error)
}
