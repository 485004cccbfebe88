/**
 * The JSON value model the engine works on (serde_json's `Value` and
 * `Number`), with the accessors the core uses.
 *
 * Numbers keep serde_json's three representations: a non-negative integer
 * that fits in u64, a negative integer that fits in i64, and a finite
 * double. Doubles are opaque: the model never computes with them; every
 * floating-point operation the core performs is supplied by a `FloatOps`
 * record.
 */
module Json {
  import opened Wrappers

  const I64_MIN: int := -0x8000_0000_0000_0000
  const I64_MAX: int := 0x7FFF_FFFF_FFFF_FFFF
  const U64_MAX: int := 0xFFFF_FFFF_FFFF_FFFF
  const U32_MAX: int := 0xFFFF_FFFF

  type I64 = x: int | I64_MIN <= x <= I64_MAX
  type U64 = x: int | 0 <= x <= U64_MAX
  type NegI64 = x: int | I64_MIN <= x < 0 witness -1

  /** An IEEE-754 binary64 value, identified by its bits and never inspected. */
  datatype F64 = F64(bits: bv64)

  /**
   * The floating-point operations the core uses, left uninterpreted.
   * `isFinite` is the test serde_json's `Number::from_f64` applies (it
   * rejects NaN and the infinities); `minValue` and `maxValue` are f64::MIN
   * and f64::MAX.
   */
  datatype FloatOps = FloatOps(
    ofInt: int -> F64,
    powf: (F64, F64) -> F64,
    log10: F64 -> F64,
    max: (F64, F64) -> F64,
    min: (F64, F64) -> F64,
    isFinite: F64 -> bool,
    minValue: F64,
    maxValue: F64)

  datatype Number =
    | PosInt(u: U64)
    | NegInt(i: NegI64)
    | Float(f: F64)

  datatype Value =
    | Null
    | Bool(b: bool)
    | Number(n: Number)
    | String(s: string)
    | Array(items: seq<Value>)
    | Object(fields: map<string, Value>)

  /** `Number::from(i64)`: non-negative integers are stored as PosInt. */
  function NumberFromI64(i: I64): (n: Number)
    ensures n.PosInt? <==> i >= 0
    ensures NumberAsI64(n) == Some(i)
  {
    if i >= 0 then PosInt(i) else NegInt(i)
  }

  /** `Number::as_i64`: defined for integers in the i64 range. */
  function NumberAsI64(n: Number): (r: Option<I64>)
    ensures r.Some? <==> n.NegInt? || (n.PosInt? && n.u <= I64_MAX)
    ensures r.Some? ==> r.value == (if n.PosInt? then n.u else n.i)
  {
    match n
    case PosInt(u) => if u <= I64_MAX then Some(u) else None
    case NegInt(i) => Some(i)
    case Float(_) => None
  }

  /** `Value::as_i64` */
  function AsI64(v: Value): (r: Option<I64>)
    ensures r.Some? ==> v.Number? && NumberAsI64(v.n) == r
    ensures v.Number? ==> r == NumberAsI64(v.n)
  {
    if v.Number? then NumberAsI64(v.n) else None
  }

  /** `Value::as_u64`: defined for non-negative integers only. */
  function AsU64(v: Value): (r: Option<U64>)
    ensures r.Some? <==> v.Number? && v.n.PosInt?
    ensures r.Some? ==> r.value == v.n.u
  {
    if v.Number? && v.n.PosInt? then Some(v.n.u) else None
  }

  /** `Value::as_f64`: defined for every number; integers are converted by `fl.ofInt`. */
  function AsF64(v: Value, fl: FloatOps): (r: Option<F64>)
    ensures r.Some? <==> v.Number?
    ensures r.Some? && v.n.Float? ==> r.value == v.n.f
  {
    match v
    case Number(PosInt(u)) => Some(fl.ofInt(u))
    case Number(NegInt(i)) => Some(fl.ofInt(i))
    case Number(Float(f)) => Some(f)
    case _ => None
  }

  /** `Value::as_str` */
  function AsStr(v: Value): (r: Option<string>)
    ensures r.Some? <==> v.String?
    ensures r.Some? ==> r.value == v.s
  {
    if v.String? then Some(v.s) else None
  }

  /** `Value::as_array` */
  function AsArray(v: Value): (r: Option<seq<Value>>)
    ensures r.Some? <==> v.Array?
    ensures r.Some? ==> r.value == v.items
  {
    if v.Array? then Some(v.items) else None
  }

  /** `Value::as_object` */
  function AsObject(v: Value): (r: Option<map<string, Value>>)
    ensures r.Some? <==> v.Object?
    ensures r.Some? ==> r.value == v.fields
  {
    if v.Object? then Some(v.fields) else None
  }

  /** `child` is a direct member of the object or array `parent`. */
  predicate IsChild(parent: Value, child: Value)
  {
    (parent.Object? && child in parent.fields.Values) ||
    (parent.Array? && child in parent.items)
  }

  /** One step into a value: an object key or an array position. */
  datatype Selector = Key(k: string) | At(i: nat)

  /** The value reached from `v` by following `path`, if every step exists. */
  function Follow(v: Value, path: seq<Selector>): Option<Value>
    decreases |path|
  {
    if path == [] then Some(v)
    else match Follow(v, path[..|path| - 1])
      case None => None
      case Some(w) =>
        match path[|path| - 1]
        case Key(k) => if w.Object? && k in w.fields then Some(w.fields[k]) else None
        case At(i) => if w.Array? && i < |w.items| then Some(w.items[i]) else None
  }

  /** `w` is `v` itself or lies somewhere inside it. */
  ghost predicate Within(v: Value, w: Value)
  {
    exists path :: Follow(v, path) == Some(w)
  }

  /** A direct child of a value within `root` is itself within `root`. */
  lemma ChildWithin(root: Value, parent: Value, child: Value)
    requires Within(root, parent) && IsChild(parent, child)
    ensures Within(root, child)
  {
    var path :| Follow(root, path) == Some(parent);
    if parent.Object? && child in parent.fields.Values {
      var k :| k in parent.fields && parent.fields[k] == child;
      var p' := path + [Key(k)];
      assert p'[..|p'| - 1] == path;
      assert Follow(root, p') == Some(child);
    } else {
      var i :| 0 <= i < |parent.items| && parent.items[i] == child;
      var p' := path + [At(i)];
      assert p'[..|p'| - 1] == path;
      assert Follow(root, p') == Some(child);
    }
  }
}
