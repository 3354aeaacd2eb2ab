/**
 * The JavaScript values the client code inspects: numbers with NaN and the
 * infinities, truthiness, optional-chaining property reads, the arithmetic the
 * page totals use, `parseFloat`, `Number(x.toFixed(4))` and the decimal
 * rendering of a whole number inside a template literal.
 *
 * Numbers are exact reals: binary floating-point rounding and negative zero are
 * not modelled.
 */
module JsValues {

  /** A JavaScript number. */
  datatype Num = Finite(r: real) | NaN | Inf(positive: bool)

  /** A JSON-like JavaScript value. */
  datatype JsVal =
    | Undefined
    | Null
    | Bool(b: bool)
    | Number(n: Num)
    | Str(s: string)
    | Arr(items: seq<JsVal>)
    | Obj(props: map<string, JsVal>)

  const Zero: JsVal := Number(Finite(0.0))

  /** JavaScript truthiness: `undefined`, `null`, `false`, `0`, `NaN` and `''` are falsy. */
  predicate Truthy(v: JsVal) {
    match v
    case Undefined => false
    case Null => false
    case Bool(b) => b
    case Number(n) => (n.Finite? && n.r != 0.0) || n.Inf?
    case Str(s) => s != ""
    case Arr(_) => true
    case Obj(_) => true
  }

  /** `v?.key`: a missing property, or any property of a non-object, reads as `undefined`. */
  function Prop(v: JsVal, key: string): JsVal {
    if v.Obj? && key in v.props then v.props[key] else Undefined
  }

  /** `v || d` */
  function OrElse(v: JsVal, d: JsVal): JsVal {
    if Truthy(v) then v else d
  }

  /** `v ?? d` */
  function Nullish(v: JsVal, d: JsVal): JsVal {
    if v.Undefined? || v.Null? then d else v
  }

  // ---------------------------------------------------------------------------
  // Arithmetic on numbers (IEEE 754 special cases, exact on finite values)

  function Add(a: Num, b: Num): Num {
    match (a, b)
    case (Finite(x), Finite(y)) => Finite(x + y)
    case (Inf(p), Inf(q)) => if p == q then Inf(p) else NaN
    case (Inf(p), Finite(_)) => Inf(p)
    case (Finite(_), Inf(q)) => Inf(q)
    case _ => NaN
  }

  function Negate(a: Num): Num {
    match a
    case Finite(x) => Finite(-x)
    case Inf(p) => Inf(!p)
    case NaN => NaN
  }

  function Sub(a: Num, b: Num): Num {
    Add(a, Negate(b))
  }

  function Mul(a: Num, b: Num): Num {
    match (a, b)
    case (Finite(x), Finite(y)) => Finite(x * y)
    case (Inf(p), Inf(q)) => Inf(p == q)
    case (Inf(p), Finite(y)) => if y == 0.0 then NaN else Inf(p == (y > 0.0))
    case (Finite(x), Inf(q)) => if x == 0.0 then NaN else Inf(q == (x > 0.0))
    case _ => NaN
  }

  /** Division; a zero divisor is taken as +0. */
  function Div(a: Num, b: Num): Num {
    match (a, b)
    case (Finite(x), Finite(y)) =>
      if y != 0.0 then Finite(x / y) else if x == 0.0 then NaN else Inf(x > 0.0)
    case (Inf(p), Finite(y)) => Inf(p == (y >= 0.0))
    case (Finite(_), Inf(_)) => Finite(0.0)
    case _ => NaN
  }

  /** `a > 0` */
  predicate Positive(a: Num) {
    (a.Finite? && a.r > 0.0) || (a.Inf? && a.positive)
  }

  lemma ProductSign(x: real, y: real)
    ensures x * y == 0.0 <==> x == 0.0 || y == 0.0
    ensures x * y > 0.0 <==> (x > 0.0 && y > 0.0) || (x < 0.0 && y < 0.0)
  {
    if x > 0.0 && y < 0.0 { assert x * y < 0.0 by { assert x * (-y) > 0.0; } }
    if x < 0.0 && y > 0.0 { assert x * y < 0.0 by { assert (-x) * y > 0.0; } }
    if x < 0.0 && y < 0.0 { assert x * y > 0.0 by { assert (-x) * (-y) > 0.0; } }
  }

  lemma MulCommutes(a: Num, b: Num)
    ensures Mul(a, b) == Mul(b, a)
  {
  }

  lemma MulAssociates(a: Num, b: Num, c: Num)
    ensures Mul(Mul(a, b), c) == Mul(a, Mul(b, c))
  {
    if a.Finite? && b.Finite? {
      ProductSign(a.r, b.r);
    }
    if b.Finite? && c.Finite? {
      ProductSign(b.r, c.r);
    }
    if a.Finite? && b.Finite? && c.Finite? {
      assert (a.r * b.r) * c.r == a.r * (b.r * c.r);
    }
  }

  lemma MulOne(a: Num)
    ensures Mul(a, Finite(1.0)) == a && Mul(Finite(1.0), a) == a
  {
  }

  /** `reduce((total, x) => total * x, 1)` over a list of numbers, from the left. */
  function MulAll(xs: seq<Num>): Num
    decreases |xs|
  {
    if xs == [] then Finite(1.0) else Mul(MulAll(xs[..|xs| - 1]), xs[|xs| - 1])
  }

  predicate AllFinite(xs: seq<Num>) {
    forall i :: 0 <= i < |xs| ==> xs[i].Finite?
  }

  /** The product of finite numbers in real arithmetic, from the right. */
  function RealProduct(xs: seq<Num>): real
    requires AllFinite(xs)
    decreases |xs|
  {
    if xs == [] then 1.0 else xs[0].r * RealProduct(xs[1..])
  }

  lemma RealProductSnoc(xs: seq<Num>, x: Num)
    requires AllFinite(xs) && x.Finite?
    ensures AllFinite(xs + [x])
    ensures RealProduct(xs + [x]) == RealProduct(xs) * x.r
    decreases |xs|
  {
    assert forall i :: 0 <= i < |xs + [x]| ==> (xs + [x])[i] == if i < |xs| then xs[i] else x;
    if xs != [] {
      assert (xs + [x])[1..] == xs[1..] + [x];
      assert AllFinite(xs[1..]) by {
        forall i | 0 <= i < |xs[1..]| ensures xs[1..][i].Finite? { assert xs[1..][i] == xs[i + 1]; }
      }
      RealProductSnoc(xs[1..], x);
    }
  }

  /** Over finite numbers the left fold of `Mul` is the plain real product. */
  lemma {:induction false} MulAllIsProduct(xs: seq<Num>)
    requires AllFinite(xs)
    ensures MulAll(xs) == Finite(RealProduct(xs))
    decreases |xs|
  {
    if xs != [] {
      var init, last := xs[..|xs| - 1], xs[|xs| - 1];
      assert AllFinite(init) by {
        forall i | 0 <= i < |init| ensures init[i].Finite? { assert init[i] == xs[i]; }
      }
      MulAllIsProduct(init);
      assert init + [last] == xs;
      RealProductSnoc(init, last);
    }
  }

  // ---------------------------------------------------------------------------
  // Number(x.toFixed(4))

  /**
   * The real that `Number(x.toFixed(4))` denotes: `x` to the nearest multiple
   * of 1/10000, a tie going away from zero (toFixed rounds the magnitude and
   * picks the larger candidate).
   */
  function Round4(x: real): real {
    if x >= 0.0 then ((x * 10000.0 + 0.5).Floor as real) / 10000.0
    else -((((-x) * 10000.0 + 0.5).Floor as real) / 10000.0)
  }

  /** `Number(n.toFixed(4))` on any number: NaN and the infinities print and parse back unchanged. */
  function RoundNum(n: Num): Num {
    if n.Finite? then Finite(Round4(n.r)) else n
  }

  /** A multiple of 1/10000 is its own rounding. */
  lemma Round4OnGrid(k: int)
    ensures Round4(k as real / 10000.0) == k as real / 10000.0
  {
    var y := k as real / 10000.0;
    assert y * 10000.0 == k as real;
    if k >= 0 {
      assert (y * 10000.0 + 0.5).Floor == k;
    } else {
      assert (-y) * 10000.0 == (-k) as real;
      assert ((-y) * 10000.0 + 0.5).Floor == -k;
    }
  }

  /** Every rounding result lies on the 1/10000 grid. */
  lemma Round4Grid(x: real) returns (k: int)
    ensures Round4(x) == k as real / 10000.0
  {
    if x >= 0.0 {
      k := (x * 10000.0 + 0.5).Floor;
    } else {
      k := -(((-x) * 10000.0 + 0.5).Floor);
    }
  }

  /** Rounding twice is rounding once. */
  lemma Round4Idempotent(x: real)
    ensures Round4(Round4(x)) == Round4(x)
  {
    var k := Round4Grid(x);
    Round4OnGrid(k);
  }

  /** Rounding moves a value by at most half a unit in the fourth decimal place. */
  lemma Round4Close(x: real)
    ensures -0.00005 <= Round4(x) - x <= 0.00005
  {
    if x >= 0.0 {
      var n := (x * 10000.0 + 0.5).Floor;
      assert x * 10000.0 - 0.5 < n as real <= x * 10000.0 + 0.5;
    } else {
      var n := ((-x) * 10000.0 + 0.5).Floor;
      assert (-x) * 10000.0 - 0.5 < n as real <= (-x) * 10000.0 + 0.5;
    }
  }

  lemma RoundNumIdempotent(n: Num)
    ensures RoundNum(RoundNum(n)) == RoundNum(n)
  {
    if n.Finite? {
      Round4Idempotent(n.r);
    }
  }

  // ---------------------------------------------------------------------------
  // Decimal digits

  predicate IsDigit(c: char) {
    '0' <= c <= '9'
  }

  predicate AllDigits(s: string) {
    forall i :: 0 <= i < |s| ==> IsDigit(s[i])
  }

  /** Decimal digits as `String(n)` writes them: at least one, and no leading zero unless the number is 0. */
  predicate CanonicalDigits(s: string) {
    |s| > 0 && AllDigits(s) && (s[0] != '0' || s == "0")
  }

  function DigitChar(d: nat): char
    requires d < 10
  {
    ['0', '1', '2', '3', '4', '5', '6', '7', '8', '9'][d]
  }

  function DigitValue(c: char): nat
    requires IsDigit(c)
  {
    c as int - '0' as int
  }

  /** The value of a string of decimal digits, most significant first. */
  function DigitsValue(s: string): nat
    requires AllDigits(s)
    decreases |s|
  {
    if s == [] then 0 else DigitsValue(s[..|s| - 1]) * 10 + DigitValue(s[|s| - 1])
  }

  /** The decimal rendering of a whole number, as `${n}` produces it. */
  function NatToString(n: nat): (s: string)
    ensures |s| > 0 && AllDigits(s)
    ensures n > 0 ==> s[0] != '0'
    ensures n == 0 ==> s == "0"
    ensures CanonicalDigits(s)
  {
    if n < 10 then [DigitChar(n)] else NatToString(n / 10) + [DigitChar(n % 10)]
  }

  /** Reading the rendered digits back gives the number. */
  lemma {:induction false} NatToStringRoundTrip(n: nat)
    ensures DigitsValue(NatToString(n)) == n
  {
    var s := NatToString(n);
    if n < 10 {
      assert s[..0] == [];
    } else {
      NatToStringRoundTrip(n / 10);
      assert s[..|s| - 1] == NatToString(n / 10);
    }
  }

  lemma NatToStringInjective(m: nat, n: nat)
    requires NatToString(m) == NatToString(n)
    ensures m == n
  {
    NatToStringRoundTrip(m);
    NatToStringRoundTrip(n);
  }

  // ---------------------------------------------------------------------------
  // parseFloat

  /** The characters that `parseFloat` strips from the front (StrWhiteSpaceChar). */
  predicate IsStrWhiteSpace(c: char) {
    c == '\t' || c == '\n' || c == '\U{B}' || c == '\U{C}' || c == '\r' || c == ' '
    || c == '\U{A0}' || c == '\U{1680}' || ('\U{2000}' <= c <= '\U{200A}')
    || c == '\U{2028}' || c == '\U{2029}' || c == '\U{202F}' || c == '\U{205F}'
    || c == '\U{3000}' || c == '\U{FEFF}'
  }

  function SkipWhiteSpace(s: string): (t: string)
    ensures |t| <= |s| && t == s[|s| - |t|..]
    ensures t != [] ==> !IsStrWhiteSpace(t[0])
  {
    if s != [] && IsStrWhiteSpace(s[0]) then SkipWhiteSpace(s[1..]) else s
  }

  /** The length of the longest all-digit prefix of `s`. */
  function LeadingDigits(s: string): (n: nat)
    ensures n <= |s| && AllDigits(s[..n])
    ensures n < |s| ==> !IsDigit(s[n])
  {
    if s != [] && IsDigit(s[0]) then
      var m := LeadingDigits(s[1..]);
      assert s[..1 + m] == [s[0]] + s[1..][..m];
      1 + m
    else 0
  }

  function Ten(n: nat): (r: real)
    ensures r >= 1.0
  {
    if n == 0 then 1.0 else 10.0 * Ten(n - 1)
  }

  function Pow10(e: int): real {
    if e >= 0 then Ten(e) else 1.0 / Ten(-e)
  }

  /** The exponent written by an `e`/`E` suffix, or 0 when `s` does not start with one. */
  function ExponentValue(s: string): int {
    if |s| >= 2 && (s[0] == 'e' || s[0] == 'E') then
      var signed := s[1] == '+' || s[1] == '-';
      var rest := if signed then s[2..] else s[1..];
      var n := LeadingDigits(rest);
      if n == 0 then 0
      else if s[1] == '-' then -(DigitsValue(rest[..n]) as int)
      else DigitsValue(rest[..n])
    else 0
  }

  /**
   * `parseFloat(s)`: skip leading white space, read an optional sign and then
   * the longest prefix that is `Infinity` or a decimal literal (digits, an
   * optional fraction, an optional exponent); NaN when there is none.
   */
  function ParseFloat(s: string): Num {
    var t := SkipWhiteSpace(s);
    if |t| > 0 && t[0] == '-' then Negate(ParseUnsigned(t[1..]))
    else if |t| > 0 && t[0] == '+' then ParseUnsigned(t[1..])
    else ParseUnsigned(t)
  }

  /** The longest prefix of `u` that is `Infinity` or an unsigned decimal literal. */
  function ParseUnsigned(u: string): Num {
    if |u| >= 8 && u[..8] == "Infinity" then Inf(true)
    else
      var ip := LeadingDigits(u);
      var hasDot := ip < |u| && u[ip] == '.';
      var fp := if hasDot then LeadingDigits(u[ip + 1..]) else 0;
      if ip == 0 && fp == 0 then NaN
      else
        var fraction := if hasDot then u[ip + 1..][..fp] else [];
        var rest := if hasDot then u[ip + 1..][fp..] else u[ip..];
        Finite(DecimalValue(u[..ip], fraction, ExponentValue(rest)))
  }

  /** The value of `<whole>.<fraction>e<e>`. */
  function DecimalValue(whole: string, fraction: string, e: int): real
    requires AllDigits(whole) && AllDigits(fraction)
  {
    assert AllDigits(whole + fraction);
    DigitsValue(whole + fraction) as real * Pow10(e - |fraction|)
  }
}
