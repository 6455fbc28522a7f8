/** Exact rational note lengths in whole notes (1/4 is a quarter note). The
    constructor normalises: the sign moves to the numerator and the fraction is
    reduced by the greatest common divisor. */
module Durations {
  import opened Common

  datatype Duration = Duration(num: int, den: int)

  /** The default duration: a quarter note. */
  const Quarter := Duration(1, 4)

  function Abs(x: int): nat {
    if x < 0 then -x else x
  }

  /** Greatest common divisor by Euclid's algorithm (`std::gcd`). */
  function Gcd(a: nat, b: nat): nat
    decreases b
  {
    if b == 0 then a else Gcd(b, a % b)
  }

  // ----- arithmetic facts about Gcd -----

  lemma {:induction false} ExactQuotient(x: int, g: int)
    requires g > 0 && x % g == 0
    ensures x == (x / g) * g
  {
  }

  lemma {:induction false} CombineMultiples(a: int, q: int, b: int, r: int, g: int, kb: int, kr: int)
    requires a == q * b + r && b == kb * g && r == kr * g
    ensures a == (q * kb + kr) * g
  {
    calc {
      a;
      q * (kb * g) + kr * g;
      (q * kb) * g + kr * g;
      (q * kb + kr) * g;
    }
  }

  lemma {:induction false} ModScale(a: nat, b: nat, k: nat)
    requires b > 0 && k > 0
    ensures (a * k) % (b * k) == (a % b) * k
  {
    var q, r := a / b, a % b;
    assert a == q * b + r;
    assert a * k == q * (b * k) + r * k;
    assert r * k < b * k;
    DivModUnique(a * k, b * k, q, r * k);
  }

  lemma {:induction false} GcdScale(a: nat, b: nat, k: nat)
    requires k > 0
    ensures Gcd(a * k, b * k) == Gcd(a, b) * k
    decreases b
  {
    if b != 0 {
      ModScale(a, b, k);
      GcdScale(b, a % b, k);
    }
  }

  lemma {:induction false} GcdDivides(a: nat, b: nat)
    ensures a > 0 || b > 0 ==> Gcd(a, b) > 0
    ensures Gcd(a, b) > 0 ==> a % Gcd(a, b) == 0 && b % Gcd(a, b) == 0
    decreases b
  {
    if b != 0 {
      var r := a % b;
      GcdDivides(b, r);
      var g := Gcd(b, r);
      assert Gcd(a, b) == g;
      ExactQuotient(b, g);
      ExactQuotient(r, g);
      CombineMultiples(a, a / b, b, r, g, b / g, r / g);
      DivModUnique(a, g, (a / b) * (b / g) + r / g, 0);
    }
  }

  /** Dividing both numbers by their greatest common divisor leaves coprime numbers. */
  lemma {:induction false} ReducedIsCoprime(a: nat, b: nat)
    requires b > 0
    ensures Gcd(a, b) > 0 && Gcd(a / Gcd(a, b), b / Gcd(a, b)) == 1
  {
    GcdDivides(a, b);
    var g := Gcd(a, b);
    var a', b' := a / g, b / g;
    ExactQuotient(a, g);
    ExactQuotient(b, g);
    GcdScale(a', b', g);
    assert Gcd(a', b') * g == 1 * g;
  }

  // ----- the normalising constructor -----

  /** `duration(n, d)`: moves the sign to the numerator and reduces by the
      greatest common divisor. The divisions are exact, so C++'s truncation
      and Dafny's Euclidean division agree. */
  function Make(n: int, d: int): Duration {
    if d < 0 then Reduce(-n, -d) else Reduce(n, d)
  }

  /** Division of both parts by their greatest common divisor, when it exceeds one. */
  function Reduce(n: int, d: nat): Duration {
    var g := Gcd(Abs(n), d);
    if g > 1 then Duration(n / g, d / g) else Duration(n, d)
  }

  lemma {:induction false} ExactSignedQuotient(n: int, g: int)
    requires g > 0 && Abs(n) % g == 0
    ensures n == (n / g) * g && Abs(n / g) == Abs(n) / g
  {
    var a := Abs(n) / g;
    ExactQuotient(Abs(n), g);
    if n >= 0 {
    } else {
      assert n == (-a) * g;
      DivModUnique(n, g, -a, 0);
    }
  }

  lemma {:induction false} ReduceFacts(n: int, d: nat)
    requires d > 0
    ensures Reduce(n, d).den > 0
    ensures Gcd(Abs(Reduce(n, d).num), Reduce(n, d).den) == 1
    ensures Reduce(n, d).num * d == n * Reduce(n, d).den
  {
    var g := Gcd(Abs(n), d);
    ReducedIsCoprime(Abs(n), d);
    GcdDivides(Abs(n), d);
    if g > 1 {
      ExactSignedQuotient(n, g);
      ExactQuotient(d, g);
      var p, q := n / g, d / g;
      SameRatio(p, q, g);
    }
  }

  lemma {:induction false} SameRatio(p: int, q: int, g: int)
    ensures p * (q * g) == (p * g) * q
  {
  }

  /** For a non-zero denominator the constructor yields a positive
      denominator, a numerator coprime to it, and the same rational value
      (equal cross products). */
  lemma {:induction false} MakeNormalises(n: int, d: int)
    requires d != 0
    ensures Make(n, d).den > 0
    ensures Gcd(Abs(Make(n, d).num), Make(n, d).den) == 1
    ensures Make(n, d).num * d == n * Make(n, d).den
  {
    if d < 0 {
      var r := Reduce(-n, -d);
      ReduceFacts(-n, -d);
      assert r.num * (-d) == (-n) * r.den;
      NegateBoth(r.num, d, n, r.den);
    } else {
      ReduceFacts(n, d);
    }
  }

  lemma {:induction false} NegateBoth(a: int, b: int, c: int, e: int)
    requires a * (-b) == (-c) * e
    ensures a * b == c * e
  {
  }

  /** A duration whose denominator is positive (every duration built by the
      constructor from a non-zero denominator). */
  predicate Wf(x: Duration) {
    x.den > 0
  }

  /** The rational number a duration stands for. */
  ghost function Value(x: Duration): real
    requires Wf(x)
  {
    x.num as real / x.den as real
  }

  lemma {:induction false} CrossValue(p: int, q: int, p': int, q': int)
    requires q > 0 && q' > 0 && p * q' == p' * q
    ensures p as real / q as real == p' as real / q' as real
  {
    var x, y := p as real / q as real, p' as real / q' as real;
    assert x * q as real == p as real;
    assert y * q' as real == p' as real;
    assert (x * q as real) * q' as real == (y * q' as real) * q as real;
    assert x * (q as real * q' as real) == y * (q as real * q' as real);
  }

  /** The constructor keeps the rational value it is given. */
  lemma {:induction false} MakeValue(n: int, d: int)
    requires d > 0
    ensures Wf(Make(n, d)) && Value(Make(n, d)) == n as real / d as real
  {
    MakeNormalises(n, d);
    var r := Make(n, d);
    CrossValue(r.num, r.den, n, d);
  }

  /** Normalising an already reduced duration changes nothing. */
  lemma {:induction false} MakeReduced(x: Duration)
    requires Wf(x) && Gcd(Abs(x.num), x.den) == 1
    ensures Make(x.num, x.den) == x
  {
  }

  function Dotted(x: Duration): Duration {
    Make(x.num * 3, x.den * 2)
  }

  function DoubleDotted(x: Duration): Duration {
    Make(x.num * 7, x.den * 4)
  }

  function Triplet(x: Duration): Duration {
    Make(x.num * 2, x.den * 3)
  }

  function Add(a: Duration, b: Duration): Duration {
    Make(a.num * b.den + b.num * a.den, a.den * b.den)
  }

  /** `d * n`: the duration repeated `n` times. */
  function Mul(x: Duration, n: int): Duration {
    Make(x.num * n, x.den)
  }

  /** `n * d`, defined as `d * n`. */
  function MulLeft(n: int, x: Duration): (r: Duration)
    ensures r == Mul(x, n)
  {
    Mul(x, n)
  }

  lemma {:induction false} ScaledValue(p: int, q: int, a: int, b: int)
    requires q > 0 && b > 0
    ensures (p * a) as real / (q * b) as real == (p as real / q as real) * (a as real / b as real)
  {
  }

  /** Dotting multiplies by 3/2, double dotting by 7/4, a triplet by 2/3. */
  lemma {:induction false} ModifierValues(x: Duration)
    requires Wf(x)
    ensures Wf(Dotted(x)) && Value(Dotted(x)) == Value(x) * (3.0 / 2.0)
    ensures Wf(DoubleDotted(x)) && Value(DoubleDotted(x)) == Value(x) * (7.0 / 4.0)
    ensures Wf(Triplet(x)) && Value(Triplet(x)) == Value(x) * (2.0 / 3.0)
  {
    MakeValue(x.num * 3, x.den * 2);
    ScaledValue(x.num, x.den, 3, 2);
    MakeValue(x.num * 7, x.den * 4);
    ScaledValue(x.num, x.den, 7, 4);
    MakeValue(x.num * 2, x.den * 3);
    ScaledValue(x.num, x.den, 2, 3);
  }

  /** `+` is addition of rational numbers. */
  lemma {:induction false} AddValue(a: Duration, b: Duration)
    requires Wf(a) && Wf(b)
    ensures Wf(Add(a, b)) && Value(Add(a, b)) == Value(a) + Value(b)
  {
    var n, d := a.num * b.den + b.num * a.den, a.den * b.den;
    MakeValue(n, d);
    var p, q, r, s := a.num as real, a.den as real, b.num as real, b.den as real;
    assert n as real == p * s + r * q by {
      CastProduct(a.num, b.den);
      CastProduct(b.num, a.den);
    }
    assert d as real == q * s by {
      CastProduct(a.den, b.den);
    }
    FractionSum(p, q, r, s);
  }

  lemma {:induction false} CastProduct(x: int, y: int)
    ensures (x * y) as real == x as real * y as real
  {
  }

  lemma {:induction false} FractionSum(p: real, q: real, r: real, s: real)
    requires q > 0.0 && s > 0.0
    ensures (p * s + r * q) / (q * s) == p / q + r / s
  {
    var x, y := p / q, r / s;
    assert p == x * q && r == y * s;
    assert p * s + r * q == (x + y) * (q * s);
  }

  /** `n` back-to-back lengths `x`. */
  ghost function Times(n: int, x: real): real {
    n as real * x
  }

  /** `d * n` multiplies the value by `n`, and so does `n * d`. */
  lemma {:induction false} MulValue(x: Duration, n: int)
    requires Wf(x)
    ensures Wf(Mul(x, n)) && Value(Mul(x, n)) == Times(n, Value(x))
    ensures MulLeft(n, x) == Mul(x, n)
  {
    MakeValue(x.num * n, x.den);
    ScaledValue(x.num, x.den, n, 1);
  }

  /** `==`: equality of the cross products. */
  predicate Eq(a: Duration, b: Duration) {
    a.num * b.den == b.num * a.den
  }

  datatype Ordering = Less | Equivalent | Greater

  /** `<=>`: three-way comparison of the cross products. */
  function Compare(a: Duration, b: Duration): Ordering {
    var l, r := a.num * b.den, b.num * a.den;
    if l < r then Less else if l == r then Equivalent else Greater
  }

  /** Comparison is by rational value: the cross products order the values. */
  lemma {:induction false} CompareIsByValue(a: Duration, b: Duration)
    requires Wf(a) && Wf(b)
    ensures Eq(a, b) <==> Value(a) == Value(b)
    ensures Compare(a, b) == Less <==> Value(a) < Value(b)
    ensures Compare(a, b) == Equivalent <==> Value(a) == Value(b)
    ensures Compare(a, b) == Greater <==> Value(a) > Value(b)
  {
    var x, y := Value(a), Value(b);
    var l, r := a.num * b.den, b.num * a.den;
    var k := a.den as real * b.den as real;
    assert k > 0.0;
    assert x * k == l as real by {
      assert x * a.den as real == a.num as real;
    }
    assert y * k == r as real by {
      assert y * b.den as real == b.num as real;
    }
    OrderByPositiveFactor(x, y, k);
  }

  lemma {:induction false} OrderByPositiveFactor(x: real, y: real, k: real)
    requires k > 0.0
    ensures x < y <==> x * k < y * k
    ensures x == y <==> x * k == y * k
  {
  }

  /** The constructor keeps the rational value for a denominator of either sign. */
  lemma {:induction false} MakeValueSigned(n: int, d: int)
    requires d != 0
    ensures Wf(Make(n, d)) && Value(Make(n, d)) == n as real / d as real
  {
    if d > 0 {
      MakeValue(n, d);
    } else {
      assert Make(n, d) == Make(-n, -d);
      MakeValue(-n, -d);
      NegatedFraction(n, d);
    }
  }

  lemma {:induction false} NegatedFraction(n: int, d: int)
    requires d != 0
    ensures (-n) as real / (-d) as real == n as real / d as real
  {
    var x := n as real / d as real;
    assert x * d as real == n as real;
    assert x * (-d) as real == (-n) as real;
  }

  /** A duration in lowest terms: what the constructor produces. */
  predicate Reduced(x: Duration) {
    Wf(x) && Gcd(Abs(x.num), x.den) == 1
  }

  lemma {:induction false} MakeIsReduced(n: int, d: int)
    requires d != 0
    ensures Reduced(Make(n, d))
  {
    MakeNormalises(n, d);
  }

  lemma {:induction false} MultipleMod(g: int, k: int)
    requires g > 0
    ensures (g * k) % g == 0
  {
    DivModUnique(g * k, g, k, 0);
  }

  /** A common divisor of two numbers divides their greatest common divisor. */
  lemma {:induction false} DividesGcd(x: nat, y: nat, g: nat)
    requires g > 0 && x % g == 0 && y % g == 0
    ensures Gcd(x, y) % g == 0
    decreases y
  {
    if y != 0 {
      var kx, ky := x / g, y / g;
      ExactQuotient(x, g);
      ExactQuotient(y, g);
      var q := x / y;
      assert x == q * y + x % y;
      assert x % y == g * (kx - q * ky) by {
        assert q * y == g * (q * ky);
      }
      MultipleMod(g, kx - q * ky);
      DividesGcd(y, x % y, g);
    }
  }

  lemma {:induction false} MutualDivisors(q: nat, s: nat)
    requires q > 0 && s > 0 && s % q == 0 && q % s == 0
    ensures q == s
  {
    ExactQuotient(s, q);
    ExactQuotient(q, s);
    if s / q == 0 || q / s == 0 {
    } else {
      MulAtLeast(s / q, q);
      MulAtLeast(q / s, s);
    }
  }

  /** If `p * s == r * q` with `p`, `q` coprime then `q` divides `s`. */
  lemma {:induction false} CoprimeDivides(p: nat, q: nat, r: nat, s: nat)
    requires q > 0 && s > 0 && Gcd(p, q) == 1 && p * s == r * q
    ensures s % q == 0
  {
    GcdScale(p, q, s);
    assert Gcd(p * s, q * s) == s;
    assert (p * s) % q == 0 by {
      assert p * s == q * r;
      MultipleMod(q, r);
    }
    assert (q * s) % q == 0 by {
      MultipleMod(q, s);
    }
    DividesGcd(p * s, q * s, q);
  }

  lemma {:induction false} AbsProduct(x: int, y: int)
    requires y > 0
    ensures Abs(x * y) == Abs(x) * y
  {
  }

  /** Durations in lowest terms are equal exactly when their values are: the
      normalising constructor gives every rational number one representation. */
  lemma {:induction false} ReducedUnique(a: Duration, b: Duration)
    requires Reduced(a) && Reduced(b) && Value(a) == Value(b)
    ensures a == b
  {
    CompareIsByValue(a, b);
    assert a.num * b.den == b.num * a.den;
    var p, q, r, s := Abs(a.num), a.den, Abs(b.num), b.den;
    AbsProduct(a.num, b.den);
    AbsProduct(b.num, a.den);
    assert p * s == r * q;
    CoprimeDivides(p, q, r, s);
    CoprimeDivides(r, s, p, q);
    MutualDivisors(q, s);
    assert a.num * q == b.num * q;
  }

  /** Common names of note lengths; anything else is "num/den". */
  function Str(x: Duration): (r: string)
    ensures x == Duration(1, 4) ==> r == "q"
  {
    if x.num == 1 && x.den == 1 then "w"
    else if x.num == 1 && x.den == 2 then "h"
    else if x.num == 1 && x.den == 4 then "q"
    else if x.num == 1 && x.den == 8 then "8th"
    else if x.num == 1 && x.den == 16 then "16th"
    else if x.num == 1 && x.den == 32 then "32nd"
    else if x.num == 3 && x.den == 2 then "w."
    else if x.num == 3 && x.den == 4 then "h."
    else if x.num == 3 && x.den == 8 then "q."
    else if x.num == 3 && x.den == 16 then "8th."
    else IntToString(x.num) + "/" + IntToString(x.den)
  }

  /** The ten named lengths print without a slash; every other length prints
      as its numerator, a slash and its denominator. */
  lemma {:induction false} StrShape(x: Duration)
    ensures var named := (x.num == 1 && x.den in {1, 2, 4, 8, 16, 32}) || (x.num == 3 && x.den in {2, 4, 8, 16});
            ('/' in Str(x)) <==> !named
    ensures '/' in Str(x) ==> Str(x) == IntToString(x.num) + "/" + IntToString(x.den)
  {
    var a := IntToString(x.num);
    if '/' !in Str(x) {
      var s := a + "/" + IntToString(x.den);
      assert s[|a|] == '/';
    }
  }

  lemma DurationExamples()
    ensures Make(2, 8) == Duration(1, 4) && Make(1, -4) == Duration(-1, 4)
    ensures Eq(Duration(1, 4), Duration(2, 8))
    ensures Compare(Duration(1, 8), Duration(1, 4)) == Less
    ensures Compare(Duration(1, 2), Duration(1, 1)) == Less
    ensures Str(Make(1, 1)) == "w" && Str(Dotted(Quarter)) == "q."
  {
  }
}
