/** Intervals on the line-of-fifths lattice: an interval is a number of
    perfect fifths plus an octave correction, which keeps enharmonic spellings
    apart (an augmented fourth is not a diminished fifth) while still reducing
    to a semitone count. */
module Intervals {
  import opened Common

  datatype Interval = Interval(fifths: int, octaves: int)

  /** `iv(k)`: the same interval moved by `k` octaves. */
  function Shift(iv: Interval, k: int): (r: Interval)
    ensures r.fifths == iv.fifths && r.octaves == iv.octaves + k
    ensures Semitones(r) == Semitones(iv)
  {
    Interval(iv.fifths, iv.octaves + k)
  }

  function Neg(iv: Interval): Interval
  {
    Interval(-iv.fifths, -iv.octaves)
  }

  function Add(a: Interval, b: Interval): Interval
  {
    Interval(a.fifths + b.fifths, a.octaves + b.octaves)
  }

  function Sub(a: Interval, b: Interval): Interval
  {
    Interval(a.fifths - b.fifths, a.octaves - b.octaves)
  }

  /** Size in semitones folded into one octave: seven semitones per fifth. */
  function Semitones(iv: Interval): (r: int)
    ensures 0 <= r < 12
    ensures r == (7 * iv.fifths) % 12
  {
    ((7 * iv.fifths) % 12 + 12) % 12
  }

  predicate IsEnharmonic(a: Interval, b: Interval) {
    Semitones(a) == Semitones(b)
  }

  /** Negation is the additive inverse, and subtracting is adding the negation. */
  lemma {:induction false} GroupLaws(a: Interval, b: Interval)
    ensures Add(a, Neg(a)) == P1
    ensures Sub(a, b) == Add(a, Neg(b))
    ensures Sub(Add(a, b), b) == a
    ensures Neg(Neg(a)) == a
  {
  }

  /** Semitone counts add modulo the octave. */
  lemma {:induction false} SemitonesAdditive(a: Interval, b: Interval)
    ensures Semitones(Add(a, b)) == (Semitones(a) + Semitones(b)) % 12
  {
    ModAdd(7 * a.fifths, 7 * b.fifths);
  }

  lemma {:induction false} ModUnique(n: int, q: int, r: int)
    requires 0 <= r < 12 && n == 12 * q + r
    ensures n % 12 == r && n / 12 == q
  {
  }

  lemma {:induction false} ModAdd(x: int, y: int)
    ensures (x + y) % 12 == (x % 12 + y % 12) % 12
  {
    var qx, rx := x / 12, x % 12;
    var qy, ry := y / 12, y % 12;
    assert x + y == 12 * (qx + qy) + (rx + ry);
    if rx + ry < 12 {
      ModUnique(x + y, qx + qy, rx + ry);
      ModUnique(rx + ry, 0, rx + ry);
    } else {
      ModUnique(x + y, qx + qy + 1, rx + ry - 12);
      ModUnique(rx + ry, 1, rx + ry - 12);
    }
  }

  // Named intervals.
  const A1 := Interval(7, -4)
  const P1 := Interval(0, 0)
  const P4 := Interval(-1, 1)
  const P5 := Interval(1, 0)
  const P8 := Interval(0, 1)
  const m2 := Interval(-5, 3)
  const M2 := Interval(2, -1)
  const m3 := Interval(-3, 2)
  const M3 := Interval(4, -2)
  const m6 := Interval(-4, 3)
  const M6 := Interval(3, -1)
  const m7 := Interval(-2, 2)
  const M7 := Interval(5, -2)
  const d2 := Interval(-12, 7)
  const A2 := Interval(9, -5)
  const d3 := Interval(-10, 6)
  const A3 := Interval(11, -6)
  const d4 := Interval(-8, 5)
  const A4 := Interval(6, -3)
  const d5 := Interval(-6, 4)
  const A5 := Interval(8, -4)
  const d7 := Interval(-9, 6)
  const A7 := Interval(12, -6)
  const m9 := Shift(m2, 1)
  const M9 := Shift(M2, 1)
  const A9 := Shift(A2, 1)
  const P11 := Shift(P4, 1)
  const A11 := Shift(A4, 1)
  const M13 := Shift(M6, 1)
  const m13 := Shift(m6, 1)

  /** Generic size of the interval counted in steps (a unison is 1, a fifth 5). */
  function Number(iv: Interval): int {
    4 * iv.fifths + 7 * iv.octaves + 1
  }

  /** The quality prefix of an interval name: P/A/d for unisons, fourths and
      fifths, M/m/A/d for the others, repeated for doubly altered intervals. */
  function QualityText(iv: Interval): (r: string)
    ensures |r| >= 1
  {
    var f := iv.fifths % 7;
    var base := [0, 1, 2, 3, 4, 5, -1][f];
    var offset := (iv.fifths - base) / 7;
    var generic := [1, 5, 2, 6, 3, 7, 4][f];
    if generic == 1 || generic == 4 || generic == 5 then
      if offset == 0 then "P"
      else if offset == 1 then "A"
      else if offset == -1 then "d"
      else if offset > 1 then Repeat('A', offset)
      else Repeat('d', -offset)
    else
      if offset == 0 then "M"
      else if offset == -1 then "m"
      else if offset >= 1 then Repeat('A', offset)
      else Repeat('d', -offset - 1)
  }

  /** Name of an interval: quality letters then the number ("P5", "m3", "M9");
      a descending interval is "-" followed by the name of its negation. */
  function Str(iv: Interval): (r: string)
    decreases if Number(iv) < 1 then 1 else 0
  {
    if Number(iv) < 1 then "-" + Str(Neg(iv))
    else QualityText(iv) + NatToString(Number(iv))
  }

  /** The sign of a name tells the direction of the interval, and a
      descending name always continues with an ascending one. */
  lemma {:induction false} StrSign(iv: Interval)
    ensures |Str(iv)| >= 2
    ensures Str(iv)[0] == '-' <==> Number(iv) < 1
    ensures Number(iv) < 1 ==> Str(iv)[1] != '-'
  {
    if Number(iv) < 1 {
      assert Number(Neg(iv)) == 2 - Number(iv);
      assert Str(Neg(iv)) == QualityText(Neg(iv)) + NatToString(Number(Neg(iv)));
      QualityTextIsLetters(Neg(iv));
    } else {
      QualityTextIsLetters(iv);
    }
  }

  lemma {:induction false} QualityTextIsLetters(iv: Interval)
    ensures QualityText(iv)[0] in {'P', 'A', 'd', 'M', 'm'}
  {
  }

  /** `+=` stores the same value that `+` returns. */
  method AddAssign(x: Interval, other: Interval) returns (x': Interval)
    ensures Sub(x', other) == x
    ensures x'.octaves - x.octaves == other.octaves && x'.fifths - x.fifths == other.fifths
  {
    x' := Add(x, other);
  }

  /** Every compound interval keeps the fifths of its simple interval and
      adds one octave. */
  lemma CompoundIntervals()
    ensures m9 == Interval(-5, 4) && M9 == Interval(2, 0) && A9 == Interval(9, -4)
    ensures P11 == Interval(-1, 2) && A11 == Interval(6, -2)
    ensures m13 == Interval(-4, 4) && M13 == Interval(3, 0)
    ensures Add(P4, P5) == P8 && Sub(P5, M3) == m3
  {
  }

  /** Spelled differently, sounding the same: A4 ~ d5, A1 ~ m2, but P4 is not P5. */
  lemma EnharmonicExamples()
    ensures IsEnharmonic(A4, d5) && IsEnharmonic(A1, m2) && !IsEnharmonic(P4, P5)
    ensures Semitones(P5) == 7 && Semitones(M3) == 4 && Semitones(m3) == 3
  {
  }

  lemma NameExamples()
    ensures Str(P5) == "P5" && Str(M3) == "M3" && Str(m7) == "m7"
    ensures Str(A4) == "A4" && Str(d5) == "d5" && Str(P8) == "P8"
  {
  }
}
