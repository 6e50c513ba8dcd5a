/**
 * The small part of JavaScript value semantics that the dashboard code relies on:
 * truthiness, `a || b`, `parseFloat`, numeric conversion for `<` and `==`, and
 * `Math.round`.  Numbers are exact reals; the only non-finite number modelled is NaN.
 * String-to-number conversion is not modelled character by character: callers pass
 * the conversion in as a function.
 */
module Js {

  datatype Option<+T> = None | Some(value: T)

  /** A JavaScript value, as far as the dashboard inspects one. */
  datatype Value =
    | Undefined
    | Null
    | Bool(b: bool)
    | Num(n: real)
    | NaN
    | Str(s: string)

  /** A JavaScript number: finite, or NaN. */
  datatype JsNumber = Finite(r: real) | NotANumber

  /** `!!v`: the falsy values are exactly `undefined`, `null`, `false`, `0`, NaN and `""`. */
  predicate Truthy(v: Value)
    ensures !Truthy(v) <==> v in {Undefined, Null, Bool(false), Num(0.0), NaN, Str("")}
  {
    match v
    case Undefined => false
    case Null => false
    case Bool(b) => b
    case Num(n) => n != 0.0
    case NaN => false
    case Str(s) => s != ""
  }

  /** `a || b`: the first operand when it is truthy, otherwise the second. */
  function Or(a: Value, b: Value): (r: Value)
    ensures r == a || r == b
    ensures Truthy(r) <==> Truthy(a) || Truthy(b)
    ensures Truthy(a) ==> r == a
  {
    if Truthy(a) then a else b
  }

  /**
   * `parseFloat(v)`.  A number parses to itself; `undefined`, `null`, booleans and
   * NaN stringify to text with no numeric prefix; a string is handed to `text`,
   * the abstract prefix parser (None standing for NaN).
   */
  function ParseFloat(v: Value, text: string -> Option<real>): (r: Option<real>)
    ensures v.Num? ==> r == Some(v.n)
    ensures v.Str? ==> r == text(v.s)
    ensures r.Some? ==> v.Num? || v.Str?
  {
    match v
    case Num(n) => Some(n)
    case Str(s) => text(s)
    case _ => None
  }

  /**
   * `Number(v)`, the conversion used by `<` and by `==` against a number;
   * `text` is the abstract whole-string numeric conversion.
   */
  function ToNumber(v: Value, text: string -> Option<real>): (r: JsNumber)
    ensures r.NotANumber? <==> v.Undefined? || v.NaN? || (v.Str? && text(v.s).None?)
    ensures v.Null? || v == Bool(false) ==> r == Finite(0.0)
    ensures v == Bool(true) ==> r == Finite(1.0)
    ensures v.Num? ==> r == Finite(v.n)
  {
    match v
    case Undefined => NotANumber
    case Null => Finite(0.0)
    case Bool(b) => Finite(if b then 1.0 else 0.0)
    case Num(n) => Finite(n)
    case NaN => NotANumber
    case Str(s) => if text(s).Some? then Finite(text(s).value) else NotANumber
  }

  /** `v < k` for a number literal `k`: false whenever `v` converts to NaN. */
  predicate LessThan(v: Value, k: real, text: string -> Option<real>)
    ensures ToNumber(v, text).NotANumber? ==> !LessThan(v, k, text)
  {
    ToNumber(v, text).Finite? && ToNumber(v, text).r < k
  }

  /** `v == k` (loose equality) for a number literal `k`: `null` and `undefined` equal no number. */
  predicate LooseEqualsNumber(v: Value, k: real, text: string -> Option<real>)
    ensures LooseEqualsNumber(v, k, text) ==> !v.Null? && !v.Undefined? && !v.NaN?
    ensures v.Num? ==> (LooseEqualsNumber(v, k, text) <==> v.n == k)
  {
    !v.Null? && !v.Undefined? && ToNumber(v, text) == Finite(k)
  }

  /** `v < k` stays true for every larger bound. */
  lemma LessThanUpward(v: Value, k: real, k': real, text: string -> Option<real>)
    requires LessThan(v, k, text) && k <= k'
    ensures LessThan(v, k', text)
  {
  }

  /** A value loosely equals at most one number. */
  lemma LooseEqualsUnique(v: Value, k: real, k': real, text: string -> Option<real>)
    requires LooseEqualsNumber(v, k, text) && LooseEqualsNumber(v, k', text)
    ensures k == k'
  {
  }

  /** `Math.round(x)`: the nearest integer, halves rounded up. */
  function Round(x: real): (r: int)
    ensures x - 0.5 < r as real <= x + 0.5
  {
    (x + 0.5).Floor
  }

  /** Math.round is monotone. */
  lemma RoundMonotone(x: real, y: real)
    requires x <= y
    ensures Round(x) <= Round(y)
  {
    assert (x + 0.5).Floor as real <= x + 0.5 <= y + 0.5;
  }
}
