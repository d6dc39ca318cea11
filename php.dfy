/**
 * The few PHP built-ins and language rules the recipe's decisions rest on:
 * `strpos`, `empty()`, numeric strings and the `<` comparison of a value
 * with an integer literal.
 */
module Php {
  import opened Wrappers

  /** The needle `n` occurs in the haystack `h` at index `i`. */
  predicate OccursAt(h: string, n: string, i: nat) {
    i + |n| <= |h| && h[i..i + |n|] == n
  }

  /** `strpos(h, n, i)`: the first index at or after `i` where `n` occurs, or None for PHP's `false`. */
  function StrPosFrom(h: string, n: string, i: nat): (r: Option<nat>)
    ensures r.Some? ==> i <= r.value && OccursAt(h, n, r.value)
    ensures r.Some? ==> forall j: nat :: i <= j < r.value ==> !OccursAt(h, n, j)
    ensures r.None? ==> forall j: nat :: i <= j ==> !OccursAt(h, n, j)
    decreases |h| - i
  {
    if i + |n| > |h| then None
    else if h[i..i + |n|] == n then Some(i)
    else StrPosFrom(h, n, i + 1)
  }

  /** `strpos(h, n)` with the default offset 0. */
  function StrPos(h: string, n: string): Option<nat> {
    StrPosFrom(h, n, 0)
  }

  /** `false !== strpos(h, n)`, the recipe's substring test: true exactly when `n` occurs somewhere in `h`. */
  function Contains(h: string, n: string): (b: bool)
    ensures b <==> exists i: nat :: OccursAt(h, n, i)
  {
    var p := StrPos(h, n);
    assert p.Some? ==> OccursAt(h, n, p.value);
    p.Some?
  }

  /** The PHP values `$php_version` can hold: `false` from `getenv`, a string, or the float literal `7.4`. */
  datatype Value = Bool(b: bool) | Str(s: string) | Float(x: real)

  /** `getenv(name)`: the variable's string, or `false` when it is unset. */
  function FromEnv(e: Option<string>): Value {
    match e
    case None => Bool(false)
    case Some(s) => Str(s)
  }

  /** PHP's `empty()`: false, 0.0, the empty string and the string "0" are empty. */
  predicate Empty(v: Value) {
    match v
    case Bool(b) => !b
    case Str(s) => s == "" || s == "0"
    case Float(x) => x == 0.0
  }

  predicate IsDigit(c: char) {
    '0' <= c <= '9'
  }

  predicate AllDigits(s: string) {
    forall i :: 0 <= i < |s| ==> IsDigit(s[i])
  }

  function DigitValue(c: char): (d: nat)
    requires IsDigit(c)
    ensures d <= 9
  {
    c as int - '0' as int
  }

  /** The value of a string of decimal digits, read left to right. */
  function IntValue(ds: string): nat
    requires AllDigits(ds)
    decreases |ds|
  {
    if ds == [] then 0
    else IntValue(ds[..|ds| - 1]) * 10 + DigitValue(ds[|ds| - 1])
  }

  /** The value of the digits after a decimal point: always a fraction in [0, 1). */
  function FracValue(ds: string): (r: real)
    requires AllDigits(ds)
    ensures 0.0 <= r < 1.0
    decreases |ds|
  {
    if ds == [] then 0.0
    else (DigitValue(ds[0]) as real + FracValue(ds[1..])) / 10.0
  }

  /**
   * The numeric strings this model accepts: one or more digits, optionally
   * followed by a point and one or more digits ("8", "7.4", "8.1").
   */
  predicate IsDecimal(s: string) {
    match StrPos(s, ".")
    case None => s != [] && AllDigits(s)
    case Some(i) => 0 < i && i + 1 < |s| && AllDigits(s[..i]) && AllDigits(s[i + 1..])
  }

  function IntegerPart(s: string): (ds: string)
    requires IsDecimal(s)
    ensures AllDigits(ds) && ds != []
  {
    match StrPos(s, ".")
    case None => s
    case Some(i) => s[..i]
  }

  function FractionPart(s: string): (ds: string)
    requires IsDecimal(s)
    ensures AllDigits(ds)
  {
    match StrPos(s, ".")
    case None => ""
    case Some(i) => s[i + 1..]
  }

  /** The exact value PHP reads from a decimal numeric string. */
  function DecimalValue(s: string): real
    requires IsDecimal(s)
  {
    IntValue(IntegerPart(s)) as real + FracValue(FractionPart(s))
  }

  /** The integer part of a decimal string, its major version when it names a PHP version. */
  function Major(s: string): nat
    requires IsDecimal(s)
  {
    IntValue(IntegerPart(s))
  }

  /** Comparing a decimal string with an integer only depends on its integer part. */
  lemma DecimalBelowIffMajorBelow(s: string, k: int)
    requires IsDecimal(s)
    ensures DecimalValue(s) < k as real <==> Major(s) < k
  {
    var f := FracValue(FractionPart(s));
    assert 0.0 <= f < 1.0;
  }

  /** The values this model can compare with an integer: anything but a non-empty, non-decimal string. */
  predicate Comparable(v: Value) {
    v.Str? ==> v.s == "" || IsDecimal(v.s)
  }

  /**
   * `v < k` for an integer literal k > 0: `false` is less than any true value,
   * the empty string compares below k in PHP 7 (as 0) and in PHP 8 (as a
   * string), a decimal string and a float compare numerically.
   */
  function LessThan(v: Value, k: nat): (b: bool)
    requires Comparable(v) && 0 < k
    ensures v == Bool(false) || v == Str("") ==> b
    ensures v == Bool(true) ==> !b
    ensures v.Str? && v.s != "" ==> (b <==> Major(v.s) < k)
    ensures v.Float? ==> (b <==> v.x < k as real)
  {
    match v
    case Bool(t) => !t
    case Str(s) =>
      if s == "" then true
      else
        DecimalBelowIffMajorBelow(s, k);
        DecimalValue(s) < k as real
    case Float(x) => x < k as real
  }
}
