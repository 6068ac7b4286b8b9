/** The JavaScript number primitives the calculation engine relies on,
    over exact reals: `Math.round`, `toFixed`, `toExponential` (each read
    back through `parseFloat`, as the engine does) and `parseFloat` itself. */
module JsNumber {
  import opened Wrappers
  import opened JsText

  function Pow10(n: nat): (r: nat)
    ensures r >= 1
  {
    if n == 0 then 1 else 10 * Pow10(n - 1)
  }

  /** 10 raised to an integer power, as a real. */
  function TenPow(e: int): (r: real)
    ensures r > 0.0
  {
    if e >= 0 then Pow10(e) as real else 1.0 / Pow10(-e) as real
  }

  lemma TenPowStep(e: int)
    ensures TenPow(e + 1) == 10.0 * TenPow(e)
  {
    if e < 0 {
      assert Pow10(-e) == 10 * Pow10(-e - 1);
    }
  }

  /** `Math.round(x)`: the nearest integer, a half rounding toward +infinity. */
  function Round(x: real): (r: int)
    ensures x - 0.5 < r as real <= x + 0.5
  {
    (x + 0.5).Floor
  }

  function Abs(x: real): real {
    if x < 0.0 then -x else x
  }

  /** `r` is a whole number of steps of size 1/p and is the step `Math.round`
      picks for `x`: within half a step, a half going up. */
  predicate NearestStep(x: real, p: real, r: real) {
    (r * p).Floor as real == r * p && x * p - 0.5 < r * p <= x * p + 0.5
  }

  /** The nearest step is within half a step of `x`. */
  lemma NearestStepBounds(x: real, p: real, r: real)
    requires p > 0.0 && NearestStep(x, p, r)
    ensures x - 0.5 / p < r <= x + 0.5 / p
  {
    assert (x * p - 0.5) / p == x - 0.5 / p;
    assert (x * p + 0.5) / p == x + 0.5 / p;
    assert r * p / p == r;
  }

  /** A larger number never has a smaller nearest step. */
  lemma NearestStepMonotone(x: real, y: real, p: real, a: real, c: real)
    requires p > 0.0 && x <= y
    requires NearestStep(x, p, a) && NearestStep(y, p, c)
    ensures a <= c
  {
    var m := (a * p).Floor;
    var n := (c * p).Floor;
    ScaleMonotone(x, y, p);
    assert m <= n;
    assert a == a * p / p && c == c * p / p;
  }

  /** Scaling by a non-negative factor before rounding to a step keeps the
      order. */
  lemma ScaledNearestStepMonotone(x: real, y: real, k: real, p: real, a: real, c: real)
    requires p > 0.0 && x <= y && k >= 0.0
    requires NearestStep(x * k, p, a) && NearestStep(y * k, p, c)
    ensures a <= c
  {
    ScaleMonotone(x, y, k);
    NearestStepMonotone(x * k, y * k, p, a, c);
  }

  lemma ScaleMonotone(x: real, y: real, k: real)
    requires x <= y && k >= 0.0
    ensures x * k <= y * k
  {
    assert (y - x) * k >= 0.0;
  }

  /** At most one step is the nearest: the rounding contracts stated with
      `NearestStep` determine their result. */
  lemma NearestStepUnique(x: real, p: real, a: real, b: real)
    requires p > 0.0
    requires NearestStep(x, p, a) && NearestStep(x, p, b)
    ensures a == b
  {
    var m := (a * p).Floor;
    var n := (b * p).Floor;
    assert m == n;
    assert a == a * p / p && b == b * p / p;
  }

  /** `parseFloat(x.toFixed(digits))`: the magnitude rounded half-up to
      `digits` decimals, the sign kept. */
  function ToFixed(x: real, digits: nat): (r: real)
    ensures x >= 0.0 ==> 0.0 <= r && NearestStep(x, TenPow(digits), r)
    ensures x < 0.0 ==> r <= 0.0 && NearestStep(-x, TenPow(digits), -r)
  {
    if x < 0.0 then -FixedMagnitude(-x, digits) else FixedMagnitude(x, digits)
  }

  function FixedMagnitude(x: real, digits: nat): (r: real)
    requires x >= 0.0
    ensures 0.0 <= r && NearestStep(x, TenPow(digits), r)
  {
    var p := TenPow(digits);
    assert x * p >= 0.0;
    RoundedStep(x, p);
    Round(x * p) as real / p
  }

  /** `Math.round(x * p) / p` is the nearest step of size 1/p. */
  lemma RoundedStep(x: real, p: real)
    requires p > 0.0
    ensures NearestStep(x, p, Round(x * p) as real / p)
  {
    var n := Round(x * p);
    var r := n as real / p;
    assert r * p == n as real;
    assert (r * p).Floor == n;
  }

  /** The decimal exponent of a positive number, as in its scientific notation. */
  function DecimalExponent(x: real): (e: int)
    requires x > 0.0
    ensures TenPow(e) <= x < 10.0 * TenPow(e)
    decreases if x >= 10.0 then x.Floor else if x < 1.0 then (1.0 / x).Floor else 0
  {
    if x >= 10.0 then
      assert (x / 10.0).Floor < x.Floor;
      var e := DecimalExponent(x / 10.0);
      TenPowStep(e);
      e + 1
    else if x < 1.0 then
      assert 1.0 / (x * 10.0) == (1.0 / x) / 10.0;
      assert 1.0 / x > 1.0;
      var e := DecimalExponent(x * 10.0);
      TenPowStep(e - 1);
      e - 1
    else
      assert TenPow(0) == 1.0;
      0
  }

  /** `parseFloat(x.toExponential(1))`: two significant digits, the
      mantissa's magnitude rounded half-up, the sign kept. */
  function ToExponential1(x: real): (r: real)
    ensures x == 0.0 ==> r == 0.0
    ensures x > 0.0 ==> WithinTwentieth(x, r) && TwoSignificant(x, r)
    ensures x < 0.0 ==> WithinTwentieth(-x, -r) && TwoSignificant(-x, -r)
  {
    if x == 0.0 then 0.0
    else if x < 0.0 then -ExponentialMagnitude(-x)
    else ExponentialMagnitude(x)
  }

  /** Scaled by the decimal exponent of the positive `x`, `r` is the
      one-decimal mantissa `Math.round` picks for that of `x`. */
  predicate TwoSignificant(x: real, r: real)
    requires x > 0.0
  {
    var t := TenPow(DecimalExponent(x));
    NearestStep(x / t, 10.0, r / t)
  }

  function ExponentialMagnitude(x: real): (r: real)
    requires x > 0.0
    ensures WithinTwentieth(x, r) && TwoSignificant(x, r)
  {
    MantissaRounded(x, TenPow(DecimalExponent(x)))
  }

  /** `x` rounded half-up to a tenth of its decimal scale `t`. */
  function MantissaRounded(x: real, t: real): (r: real)
    requires 0.0 < t <= x < 10.0 * t
    ensures WithinTwentieth(x, r)
    ensures NearestStep(x / t, 10.0, r / t)
  {
    var y := x / t * 10.0;
    var n := Round(y) as real;
    ExponentialBounds(x, t, y, n);
    assert n / 10.0 * t / t * 10.0 == n;
    n / 10.0 * t
  }

  /** `r` is positive and within a twentieth of the positive `x`. */
  predicate WithinTwentieth(x: real, r: real) {
    0.0 < r && x - x / 20.0 <= r <= x + x / 20.0
  }

  /** Rounding the mantissa x / t to one decimal moves x by at most a
      twentieth of itself. */
  lemma ExponentialBounds(x: real, t: real, y: real, n: real)
    requires 0.0 < t <= x < 10.0 * t && y == x / t * 10.0
    requires y - 0.5 < n <= y + 0.5
    ensures WithinTwentieth(x, n / 10.0 * t)
  {
    var m := x / t;
    assert m * t == x;
    var d := n - m * 10.0;
    assert n / 10.0 * t == x + d * t / 10.0;
    assert -0.5 * t <= d * t <= 0.5 * t by {
      assert (d + 0.5) * t >= 0.0;
      assert (0.5 - d) * t >= 0.0;
    }
    QuotientAtLeastOne(x, t);
  }

  lemma QuotientAtLeastOne(x: real, t: real)
    requires 0.0 < t <= x
    ensures x / t >= 1.0
  {
    assert x / t * t == x;
  }

  predicate IsDigit(c: char) {
    '0' <= c <= '9'
  }

  predicate AllDigits(d: string) {
    forall i | 0 <= i < |d| :: IsDigit(d[i])
  }

  /** The length of the run of decimal digits that starts `s`. */
  function DigitRun(s: string): (n: nat)
    ensures n <= |s|
    ensures AllDigits(s[..n])
    ensures n < |s| ==> !IsDigit(s[n])
  {
    if |s| > 0 && IsDigit(s[0]) then 1 + DigitRun(s[1..]) else 0
  }

  /** The value of a string of decimal digits. */
  function DigitsValue(d: string): nat
    requires AllDigits(d)
  {
    if |d| == 0 then 0
    else DigitsValue(d[..|d| - 1]) * 10 + (d[|d| - 1] as int - '0' as int)
  }

  /** The unsigned part of `parseFloat`: the longest prefix of the form
      digits [. digits] or . digits. */
  function ParseUnsigned(u: string): (r: Option<real>)
    ensures |u| > 0 && IsDigit(u[0]) ==> r.Some?
    ensures |u| == 0 || !(IsDigit(u[0]) || u[0] == '.') ==> r.None?
    ensures r.Some? ==> r.value >= 0.0
  {
    var n := DigitRun(u);
    var fraction := FractionDigits(u[n..]);
    if n == 0 && |fraction| == 0 then None
    else Some(DigitsValue(u[..n]) as real + DigitsValue(fraction) as real / TenPow(|fraction|))
  }

  /** The digits after a leading decimal point, if there is one. */
  function FractionDigits(rest: string): (f: string)
    ensures AllDigits(f)
    ensures |rest| == 0 || rest[0] != '.' ==> f == ""
  {
    if |rest| > 0 && rest[0] == '.' then rest[1..][..DigitRun(rest[1..])] else ""
  }

  /** `parseFloat(s)`: skips leading white space and an optional sign, then
      reads an unsigned decimal; `None` stands for NaN. Exponents and
      "Infinity" are not modelled. */
  function ParseFloat(s: string): (r: Option<real>)
    ensures var t := TrimStart(s);
      |t| > 0 && IsDigit(t[0]) ==> r.Some? && r.value >= 0.0
    ensures var t := TrimStart(s);
      |t| == 0 || !(IsDigit(t[0]) || t[0] == '+' || t[0] == '-' || t[0] == '.') ==> r.None?
  {
    var t := TrimStart(s);
    if |t| > 0 && t[0] == '-' then
      match ParseUnsigned(t[1..])
      case Some(v) => Some(-v)
      case None => None
    else if |t| > 0 && t[0] == '+' then ParseUnsigned(t[1..])
    else ParseUnsigned(t)
  }

  /** A carton label such as "250 ml" parses to the number its digits spell. */
  lemma ParseFloatOfLabel(d: string, suffix: string)
    requires |d| > 0 && AllDigits(d)
    requires |suffix| > 0 && !IsDigit(suffix[0]) && suffix[0] != '.'
    ensures ParseFloat(d + suffix) == Some(DigitsValue(d) as real)
  {
    var s := d + suffix;
    assert s[0] == d[0];
    ParseFloatOfDigit(s);
    ParseUnsignedOfLabel(d, suffix);
  }

  /** Text that starts with a digit parses as an unsigned number. */
  lemma ParseFloatOfDigit(s: string)
    requires |s| > 0 && IsDigit(s[0])
    ensures ParseFloat(s) == ParseUnsigned(s)
  {
    assert !IsSpace(s[0]);
    var t := TrimStart(s);
    assert t == s;
    assert t[0] != '-' && t[0] != '+';
  }

  lemma ParseUnsignedOfLabel(d: string, suffix: string)
    requires |d| > 0 && AllDigits(d)
    requires |suffix| > 0 && !IsDigit(suffix[0]) && suffix[0] != '.'
    ensures ParseUnsigned(d + suffix) == Some(DigitsValue(d) as real)
  {
    DigitRunOfPrefix(d, suffix);
    ParseUnsignedAfterDigits(d + suffix, d, suffix);
  }

  lemma ParseUnsignedAfterDigits(s: string, d: string, suffix: string)
    requires |d| > 0 && AllDigits(d)
    requires |suffix| > 0 && suffix[0] != '.'
    requires s == d + suffix && DigitRun(s) == |d|
    ensures ParseUnsigned(s) == Some(DigitsValue(d) as real)
  {
    assert s[..|d|] == d;
    assert s[|d|..] == suffix;
    assert FractionDigits(s[|d|..]) == "";
    assert DigitsValue("") == 0 && TenPow(0) == 1.0;
  }

  lemma {:induction false} DigitRunOfPrefix(d: string, suffix: string)
    requires AllDigits(d)
    requires |suffix| == 0 || !IsDigit(suffix[0])
    ensures DigitRun(d + suffix) == |d|
  {
    if |d| > 0 {
      assert (d + suffix)[1..] == d[1..] + suffix;
      DigitRunOfPrefix(d[1..], suffix);
    } else {
      assert d + suffix == suffix;
    }
  }
}
