/**
 * The numeric built-in functions POW, LOG10, MAX and MIN
 * (src/builtin/function/math.rs). Each first checks its argument count,
 * then tries an integer computation and falls back to floating point.
 * Floating-point arithmetic is left uninterpreted (a `FloatOps` record);
 * the integer paths, the type checks and the fallback rules are exact.
 */
module MathFunctions {
  import opened Wrappers
  import opened Errors
  import opened Json

  /** `validate_args_len`: inclusive optional bounds on the argument count. */
  function ValidateArgsLen(args: seq<Value>, min: Option<nat>, max: Option<nat>, name: string): (r: Outcome)
    ensures r.Pass? <==> (min.None? || |args| >= min.value) && (max.None? || |args| <= max.value)
    ensures min.Some? && |args| < min.value ==> r == Fail(InvalidArgCount(name, |args|, min.value))
    ensures (min.None? || |args| >= min.value) && max.Some? && |args| > max.value ==>
              r == Fail(InvalidArgCount(name, |args|, max.value))
  {
    if min.Some? && |args| < min.value then Fail(InvalidArgCount(name, |args|, min.value))
    else if max.Some? && |args| > max.value then Fail(InvalidArgCount(name, |args|, max.value))
    else Pass
  }

  /** `get_arg`: the argument at `index`, converted by `f`; a missing or unconvertible one fails. */
  function GetArg<T>(args: seq<Value>, index: nat, f: Value -> Option<T>): (r: Result<T>)
    ensures r.Ok? <==> index < |args| && f(args[index]).Some?
    ensures r.Ok? ==> r.value == f(args[index]).value
    ensures r.Err? ==> r.error == InvalidArgType
  {
    if index < |args| && f(args[index]).Some? then Ok(f(args[index]).value) else Err(InvalidArgType)
  }

  /** `get_two_args`: the first two arguments, converted by `f1` and `f2`. */
  function GetTwoArgs<T1, T2>(args: seq<Value>, f1: Value -> Option<T1>, f2: Value -> Option<T2>): (r: Result<(T1, T2)>)
    ensures r.Ok? <==> |args| >= 2 && f1(args[0]).Some? && f2(args[1]).Some?
    ensures r.Ok? ==> r.value == (f1(args[0]).value, f2(args[1]).value)
    ensures r.Err? ==> r.error == InvalidArgType
  {
    match GetArg(args, 0, f1)
    case Err(e) => Err(e)
    case Ok(a) =>
      match GetArg(args, 1, f2)
      case Err(e) => Err(e)
      case Ok(b) => Ok((a, b))
  }

  /** `Number::from_f64`, wrapped as a value: NaN and the infinities are an error of `name`. */
  function FloatResult(x: F64, fl: FloatOps, name: string): (r: Result<Value>)
    ensures r.Ok? <==> fl.isFinite(x)
    ensures r.Ok? ==> r.value == Number(Float(x))
    ensures r.Err? ==> r.error == NotFinite(name)
  {
    if fl.isFinite(x) then Ok(Number(Float(x))) else Err(NotFinite(name))
  }

  /** b raised to the power e, by repeated multiplication. */
  function IntPow(b: int, e: nat): int
  {
    if e == 0 then 1 else b * IntPow(b, e - 1)
  }

  /**
   * The integer path of POW computes `b.pow(e as u32)` on i64. The model
   * admits only arguments for which that is exact: the exponent fits in u32
   * and the power in i64.
   */
  predicate IntPowFits(args: seq<Value>)
  {
    |args| == 2 && AsI64(args[0]).Some? && AsU64(args[1]).Some? ==>
      AsU64(args[1]).value <= U32_MAX &&
      I64_MIN <= IntPow(AsI64(args[0]).value, AsU64(args[1]).value) <= I64_MAX
  }

  /** The arguments of POW take its integer path. */
  predicate PowTakesIntegerPath(args: seq<Value>)
  {
    |args| == 2 && AsI64(args[0]).Some? && AsU64(args[1]).Some?
  }

  /** `pow`: POW(base, exponent). */
  function Pow(args: seq<Value>, fl: FloatOps): (r: Result<Value>)
    requires IntPowFits(args)
    ensures |args| != 2 ==> r == Err(InvalidArgCount("POW", |args|, 2))
    ensures PowTakesIntegerPath(args) ==>
              r.Ok? && AsI64(r.value) == Some(IntPow(AsI64(args[0]).value, AsU64(args[1]).value))
    ensures |args| == 2 && !PowTakesIntegerPath(args) && !(args[0].Number? && args[1].Number?) ==>
              r == Err(InvalidArgType)
    ensures |args| == 2 && !PowTakesIntegerPath(args) && args[0].Number? && args[1].Number? ==>
              r == FloatResult(fl.powf(AsF64(args[0], fl).value, AsF64(args[1], fl).value), fl, "POW")
  {
    match ValidateArgsLen(args, Some(2), Some(2), "POW")
    case Fail(e) => Err(e)
    case Pass =>
      match GetTwoArgs(args, AsI64, AsU64)
      case Ok((b, e)) => Ok(Number(NumberFromI64(IntPow(b, e))))
      case Err(_) =>
        match GetTwoArgs(args, v => AsF64(v, fl), v => AsF64(v, fl))
        case Err(e) => Err(e)
        case Ok((b, e)) => FloatResult(fl.powf(b, e), fl, "POW")
  }

  /** `log10`: LOG10(x). */
  function Log10(args: seq<Value>, fl: FloatOps): (r: Result<Value>)
    ensures |args| != 1 ==> r == Err(InvalidArgCount("LOG10", |args|, 1))
    ensures |args| == 1 && !args[0].Number? ==> r == Err(InvalidArgType)
    ensures |args| == 1 && args[0].Number? ==> r == FloatResult(fl.log10(AsF64(args[0], fl).value), fl, "LOG10")
  {
    match ValidateArgsLen(args, Some(1), Some(1), "LOG10")
    case Fail(e) => Err(e)
    case Pass =>
      match GetArg(args, 0, v => AsF64(v, fl))
      case Err(e) => Err(e)
      case Ok(x) => FloatResult(fl.log10(x), fl, "LOG10")
  }

  /** Every argument passes `as_i64`. */
  predicate AllI64(args: seq<Value>)
  {
    forall k :: 0 <= k < |args| ==> AsI64(args[k]).Some?
  }

  /** Every argument is a number (passes `as_f64`). */
  predicate AllNumbers(args: seq<Value>)
  {
    forall k :: 0 <= k < |args| ==> args[k].Number?
  }

  /** `m` is one of the (i64) arguments and no argument is larger. */
  predicate IsLargest(m: int, args: seq<Value>)
    requires AllI64(args)
  {
    (exists k :: 0 <= k < |args| && AsI64(args[k]).value == m) &&
    forall k :: 0 <= k < |args| ==> AsI64(args[k]).value <= m
  }

  /** `m` is one of the (i64) arguments and no argument is smaller. */
  predicate IsSmallest(m: int, args: seq<Value>)
    requires AllI64(args)
  {
    (exists k :: 0 <= k < |args| && AsI64(args[k]).value == m) &&
    forall k :: 0 <= k < |args| ==> AsI64(args[k]).value >= m
  }

  /** The integer pass of MAX: `try_fold` from `acc` with `i64::max`, failing on a non-i64. */
  function FoldMaxI64(acc: I64, args: seq<Value>): (r: Option<I64>)
    decreases |args|
    ensures r.Some? <==> AllI64(args)
    ensures r.Some? ==> acc <= r.value && forall k :: 0 <= k < |args| ==> AsI64(args[k]).value <= r.value
    ensures r.Some? ==> r.value == acc || exists k :: 0 <= k < |args| && AsI64(args[k]).value == r.value
  {
    if args == [] then Some(acc)
    else
      match AsI64(args[0])
      case None => None
      case Some(x) =>
        var r := FoldMaxI64(if acc < x then x else acc, args[1..]);
        assert r.Some? ==> forall k :: 1 <= k < |args| ==> AsI64(args[k]) == AsI64(args[1..][k - 1]);
        r
  }

  /** The integer pass of MIN: `try_fold` from `acc` with `i64::min`, failing on a non-i64. */
  function FoldMinI64(acc: I64, args: seq<Value>): (r: Option<I64>)
    decreases |args|
    ensures r.Some? <==> AllI64(args)
    ensures r.Some? ==> r.value <= acc && forall k :: 0 <= k < |args| ==> r.value <= AsI64(args[k]).value
    ensures r.Some? ==> r.value == acc || exists k :: 0 <= k < |args| && AsI64(args[k]).value == r.value
  {
    if args == [] then Some(acc)
    else
      match AsI64(args[0])
      case None => None
      case Some(x) =>
        var r := FoldMinI64(if x < acc then x else acc, args[1..]);
        assert r.Some? ==> forall k :: 1 <= k < |args| ==> AsI64(args[k]) == AsI64(args[1..][k - 1]);
        r
  }

  /** The floating-point pass of MAX and MIN: `try_fold` with `op`, failing on a non-number. */
  function FoldF64(acc: F64, args: seq<Value>, fl: FloatOps, op: (F64, F64) -> F64): (r: Option<F64>)
    decreases |args|
    ensures r.Some? <==> AllNumbers(args)
  {
    if args == [] then Some(acc)
    else
      match AsF64(args[0], fl)
      case None => None
      case Some(x) => FoldF64(op(acc, x), args[1..], fl, op)
  }

  /** `max`: MAX(x1, ...). */
  function Max(args: seq<Value>, fl: FloatOps): (r: Result<Value>)
    ensures args == [] ==> r == Err(InvalidArgCount("MAX", 0, 1))
    ensures args != [] && AllI64(args) ==> r.Ok? && AsI64(r.value).Some? && IsLargest(AsI64(r.value).value, args)
    ensures args != [] && !AllNumbers(args) ==> r == Err(InvalidArgument)
    ensures args != [] && AllNumbers(args) && !AllI64(args) ==>
              r == FloatResult(FoldF64(fl.minValue, args, fl, fl.max).value, fl, "MAX")
  {
    match ValidateArgsLen(args, Some(1), None, "MAX")
    case Fail(e) => Err(e)
    case Pass =>
      match FoldMaxI64(I64_MIN, args)
      case Some(m) => Ok(Number(NumberFromI64(m)))
      case None =>
        match FoldF64(fl.minValue, args, fl, fl.max)
        case None => Err(InvalidArgument)
        case Some(x) => FloatResult(x, fl, "MAX")
  }

  /** `min`: MIN(x1, ...). */
  function Min(args: seq<Value>, fl: FloatOps): (r: Result<Value>)
    ensures args == [] ==> r == Err(InvalidArgCount("MIN", 0, 1))
    ensures args != [] && AllI64(args) ==> r.Ok? && AsI64(r.value).Some? && IsSmallest(AsI64(r.value).value, args)
    ensures args != [] && !AllNumbers(args) ==> r == Err(InvalidArgument)
    ensures args != [] && AllNumbers(args) && !AllI64(args) ==>
              r == FloatResult(FoldF64(fl.maxValue, args, fl, fl.min).value, fl, "MIN")
  {
    match ValidateArgsLen(args, Some(1), None, "MIN")
    case Fail(e) => Err(e)
    case Pass =>
      match FoldMinI64(I64_MAX, args)
      case Some(m) => Ok(Number(NumberFromI64(m)))
      case None =>
        match FoldF64(fl.maxValue, args, fl, fl.min)
        case None => Err(InvalidArgument)
        case Some(x) => FloatResult(x, fl, "MIN")
  }
}

/** What the numeric built-ins promise, proved about module MathFunctions. */
module MathProperties {
  import opened Wrappers
  import opened Errors
  import opened Json
  import opened MathFunctions

  function Int(i: I64): Value
  {
    Number(NumberFromI64(i))
  }

  /** POW takes exactly two arguments, LOG10 exactly one, MAX and MIN at least one. */
  lemma ArityErrors(args: seq<Value>, fl: FloatOps)
    ensures |args| != 2 ==> IntPowFits(args) && Pow(args, fl) == Err(InvalidArgCount("POW", |args|, 2))
    ensures |args| != 1 ==> Log10(args, fl) == Err(InvalidArgCount("LOG10", |args|, 1))
    ensures Max([], fl) == Err(InvalidArgCount("MAX", 0, 1))
    ensures Min([], fl) == Err(InvalidArgCount("MIN", 0, 1))
  {
  }

  /** POW(10, 2) = 100 and POW(7, 3) = 343, both on the integer path. */
  lemma PowIntegerExamples(fl: FloatOps)
    ensures IntPowFits([Int(10), Int(2)]) && Pow([Int(10), Int(2)], fl) == Ok(Int(100))
    ensures IntPowFits([Int(7), Int(3)]) && Pow([Int(7), Int(3)], fl) == Ok(Int(343))
  {
  }

  /**
   * A negative or fractional exponent never takes the integer path: the
   * result is the floating-point power, or an error if that is not finite.
   */
  lemma PowNonNaturalExponent(base: Value, exponent: Value, fl: FloatOps)
    requires base.Number? && exponent.Number? && !exponent.n.PosInt?
    ensures IntPowFits([base, exponent])
    ensures Pow([base, exponent], fl)
         == FloatResult(fl.powf(AsF64(base, fl).value, AsF64(exponent, fl).value), fl, "POW")
  {
  }

  /** A non-numeric argument to POW or LOG10 is an argument-type error. */
  lemma NonNumericArgument(x: Value, y: Value, fl: FloatOps)
    requires !x.Number?
    ensures IntPowFits([x, y]) && Pow([x, y], fl) == Err(InvalidArgType)
    ensures IntPowFits([y, x]) && Pow([y, x], fl) == Err(InvalidArgType)
    ensures Log10([x], fl) == Err(InvalidArgType)
  {
  }

  /**
   * A non-number makes both passes of MAX and MIN fail, so the call fails;
   * it is never skipped.
   */
  lemma NonNumberFailsMaxMin(args: seq<Value>, k: nat, fl: FloatOps)
    requires k < |args| && !args[k].Number?
    ensures FoldMaxI64(I64_MIN, args).None? && FoldF64(fl.minValue, args, fl, fl.max).None?
    ensures FoldMinI64(I64_MAX, args).None? && FoldF64(fl.maxValue, args, fl, fl.min).None?
    ensures Max(args, fl) == Err(InvalidArgument) && Min(args, fl) == Err(InvalidArgument)
  {
  }

  /** MIN(-100, 200, 10000, -1, -10235) = -10235, on the integer pass. */
  lemma MinIntegerExample(fl: FloatOps)
    ensures Min([Int(-100), Int(200), Int(10000), Int(-1), Int(-10235)], fl) == Ok(Int(-10235))
  {
    var args := [Int(-100), Int(200), Int(10000), Int(-1), Int(-10235)];
    assert AllI64(args) by {
      forall k | 0 <= k < |args| ensures AsI64(args[k]).Some? { }
    }
    var r := Min(args, fl);
    assert AsI64(args[4]).value == -10235;
    assert AsI64(r.value) == Some(-10235);
  }

  /** MAX(1, 2, 3, 4) = 4, on the integer pass. */
  lemma MaxIntegerExample(fl: FloatOps)
    ensures Max([Int(1), Int(2), Int(3), Int(4)], fl) == Ok(Int(4))
  {
    var args := [Int(1), Int(2), Int(3), Int(4)];
    assert AllI64(args) by {
      forall k | 0 <= k < |args| ensures AsI64(args[k]).Some? { }
    }
    var r := Max(args, fl);
    assert AsI64(args[3]).value == 4;
    assert AsI64(r.value) == Some(4);
  }

  /**
   * MIN(f, 200, -10) with a floating-point f is computed by the float pass,
   * folding from f64::MAX in argument order.
   */
  lemma MinWithFloatUsesFloatPass(f: F64, fl: FloatOps)
    ensures Min([Number(Float(f)), Int(200), Int(-10)], fl)
         == FloatResult(fl.min(fl.min(fl.min(fl.maxValue, f), fl.ofInt(200)), fl.ofInt(-10)), fl, "MIN")
  {
    var args := [Number(Float(f)), Int(200), Int(-10)];
    assert AllNumbers(args);
    assert !AllI64(args) by { assert AsI64(args[0]).None?; }
    var a1 := fl.min(fl.maxValue, f);
    var a2 := fl.min(a1, fl.ofInt(200));
    var a3 := fl.min(a2, fl.ofInt(-10));
    assert args[1..] == [Int(200), Int(-10)] && args[1..][1..] == [Int(-10)] && [Int(-10)][1..] == [];
    assert FoldF64(a2, [Int(-10)], fl, fl.min) == FoldF64(a3, [], fl, fl.min) == Some(a3);
    assert FoldF64(a1, args[1..], fl, fl.min) == FoldF64(a2, [Int(-10)], fl, fl.min);
    assert FoldF64(fl.maxValue, args, fl, fl.min) == FoldF64(a1, args[1..], fl, fl.min);
  }
}
