/** Time signatures, whole bars in a duration, and positions inside bars, on
    the exact rational durations of the Durations module. Tempo (seconds and
    beats per minute) is floating point and is not part of this model. */
module Timing {
  import opened Common
  import opened Durations

  /** `beats` beats per bar, each beat a `1/beatUnit` note. */
  datatype TimeSignature = TimeSignature(beats: int, beatUnit: int)

  /** The default time signature, 4/4. */
  const DefaultSignature := TimeSignature(4, 4)

  // The named signatures.
  const CommonTime := TimeSignature(4, 4)
  const Cut := TimeSignature(2, 2)
  const Waltz := TimeSignature(3, 4)
  const SixEight := TimeSignature(6, 8)
  const NineEight := TimeSignature(9, 8)
  const TwelveEight := TimeSignature(12, 8)
  const FiveFour := TimeSignature(5, 4)
  const SevenEight := TimeSignature(7, 8)

  function BeatDuration(ts: TimeSignature): Duration {
    Make(1, ts.beatUnit)
  }

  function BarDuration(ts: TimeSignature): Duration {
    Make(ts.beats, ts.beatUnit)
  }

  /** A signature whose bar has positive length. */
  predicate PositiveBar(ts: TimeSignature) {
    ts.beats * ts.beatUnit > 0
  }

  // ----- real-number facts used below -----

  lemma {:induction false} QuotientFacts(b: int, u: int)
    requires u != 0
    ensures b as real / u as real == Times(b, 1.0 / u as real)
    ensures b as real / u as real > 0.0 <==> b * u > 0
  {
    var x := b as real / u as real;
    assert x * u as real == b as real;
    CastProduct(b, u);
    assert (b * u) as real == x * (u as real * u as real);
    assert u as real * u as real > 0.0;
  }

  /** A pulse of three beats, counted `k` times, fills a bar of `3k` beats. */
  lemma {:induction false} CompoundPulseFill(k: int, u: int)
    requires u != 0
    ensures Wf(Make(3, u)) && Wf(Make(3 * k, u))
    ensures Times(k, Value(Make(3, u))) == Value(Make(3 * k, u))
  {
    MakeValueSigned(3, u);
    MakeValueSigned(3 * k, u);
    ThirdsScale(Make(3, u), Make(3 * k, u), k, u);
  }

  lemma {:induction false} ThirdsScale(pulse: Duration, whole: Duration, k: int, u: int)
    requires u != 0 && Wf(pulse) && Wf(whole)
    requires Value(pulse) == 3 as real / u as real && Value(whole) == (3 * k) as real / u as real
    ensures Times(k, Value(pulse)) == Value(whole)
  {
    ThirdsOf(k, u as real);
  }

  lemma {:induction false} PulseOfThree(u: int)
    requires u != 0
    ensures Wf(Make(3, u)) && Wf(Make(1, u))
    ensures Value(Make(3, u)) == 3.0 / u as real && Value(Make(3, u)) == 3.0 * Value(Make(1, u))
  {
    MakeValueSigned(3, u);
    MakeValueSigned(1, u);
    ThirdsOf(0, u as real);
  }

  lemma {:induction false} ThirdsOf(k: int, u: real)
    requires u != 0.0
    ensures Times(k, 3.0 / u) == (3 * k) as real / u
    ensures 3.0 / u == 3.0 * (1.0 / u)
  {
  }

  lemma {:induction false} AtLeastOneUnit(n: int, b: real)
    requires n >= 1 && b > 0.0
    ensures Times(n, b) >= b
  {
    assert (n - 1) as real * b >= 0.0;
  }

  lemma {:induction false} SuccTimes(k: int, b: real)
    ensures Times(k + 1, b) == Times(k, b) + b
  {
  }

  /** More bars of a positive length are longer by at least one bar. */
  lemma {:induction false} TimesStrict(i: int, j: int, b: real)
    requires i < j && b > 0.0
    ensures Times(i, b) + b <= Times(j, b)
  {
    assert j as real * b - i as real * b == (j - i) as real * b;
    assert (j - i - 1) as real * b >= 0.0;
  }

  /** The sign of a duration is the sign of its numerator. */
  lemma {:induction false} NumeratorSign(x: Duration)
    requires Wf(x)
    ensures Value(x) > 0.0 <==> x.num > 0
    ensures Value(x) >= 0.0 <==> x.num >= 0
  {
    assert Value(x) * x.den as real == x.num as real;
  }

  lemma {:induction false} NegatedScaledFraction(a: int, q: int, b: int)
    requires b > 0
    ensures (-(a * q)) as real / b as real == -(q as real * (a as real / b as real))
  {
    var u := a as real / b as real;
    assert u * b as real == a as real;
    CastProduct(a, q);
    assert (q as real * u) * b as real == (a * q) as real;
  }

  /** Taking `q` bars off `d`: the constructor yields lowest terms and the
      value drops by `q` bars. */
  lemma {:induction false} TakeBars(d: Duration, bar: Duration, q: int)
    requires Wf(d) && Wf(bar)
    ensures Reduced(Add(d, Make(-(bar.num * q), bar.den)))
    ensures Value(Add(d, Make(-(bar.num * q), bar.den))) == Value(d) - Times(q, Value(bar))
  {
    var m := Make(-(bar.num * q), bar.den);
    MakeValue(-(bar.num * q), bar.den);
    NegatedScaledFraction(bar.num, q, bar.den);
    AddValue(d, m);
    PositiveProduct(d.den, m.den);
    MakeIsReduced(d.num * m.den + m.num * d.den, d.den * m.den);
  }

  lemma {:induction false} PositiveProduct(x: int, y: int)
    requires x > 0 && y > 0
    ensures x * y > 0
  {
  }

  lemma {:induction false} NonNegativeProduct(x: int, y: int)
    requires x >= 0 && y > 0
    ensures x * y >= 0
  {
  }

  /** Euclidean division of the cross products splits a non-negative duration
      `x` into whole units `u` and a remainder in `[0, u)`; the remainder is
      zero exactly when the integer remainder is. */
  lemma {:induction false} QuotientOfDurations(x: Duration, u: Duration)
    requires Wf(x) && Wf(u) && u.num > 0 && x.num >= 0
    ensures x.den * u.num > 0 && x.num * u.den >= 0
    ensures var t, per := x.num * u.den, x.den * u.num;
      var y := (t % per) as real / (x.den * u.den) as real;
      Value(x) == Times(t / per, Value(u)) + y && 0.0 <= y < Value(u) &&
      (y == 0.0 <==> t % per == 0)
  {
    PositiveProduct(x.den, u.num);
    NonNegativeProduct(x.num, u.den);
    var n, m, a, b := x.num, x.den, u.num, u.den;
    var t, per := n * b, m * a;
    var q, rr := t / per, t % per;
    assert t == q * per + rr;
    var mr, br := m as real, b as real;
    var X, U := Value(x), Value(u);
    assert X * mr == n as real;
    assert U * br == a as real;
    PositiveProduct(m, b);
    var y := rr as real / (m * b) as real;
    CastProduct(m, b);
    assert y * (mr * br) == rr as real;
    CastProduct(q, per);
    CastProduct(m, a);
    CastProduct(n, b);
    assert (q as real * U) * (mr * br) == (q * per) as real by {
      assert (q as real * U) * (mr * br) == q as real * (U * br) * mr;
    }
    assert (q as real * U + y) * (mr * br) == t as real;
    assert X * (mr * br) == t as real;
    assert X == q as real * U + y;
    assert y * (mr * br) < U * (mr * br) by {
      assert U * (mr * br) == (m * a) as real;
    }
  }

  /** Two splittings of one value into whole units and a remainder in
      `[0, b)` agree. */
  lemma {:induction false} QuotientUnique(k: int, q: int, b: real, x: real, y: real)
    requires b > 0.0 && 0.0 <= x < b && 0.0 <= y < b
    requires x + Times(k, b) == y + Times(q, b)
    ensures k == q && x == y
  {
    if k > q {
      TimesStrict(q, k, b);
    } else if k < q {
      TimesStrict(k, q, b);
    }
  }

  /** A beat lasts `1/beatUnit` and a bar `beats/beatUnit`, so a bar is
      `beats` beats, and a bar is positive exactly for a `PositiveBar`. */
  lemma {:induction false} SignatureDurations(ts: TimeSignature)
    requires ts.beatUnit != 0
    ensures Wf(BeatDuration(ts)) && Value(BeatDuration(ts)) == 1.0 / ts.beatUnit as real
    ensures Wf(BarDuration(ts)) && Value(BarDuration(ts)) == ts.beats as real / ts.beatUnit as real
    ensures Value(BarDuration(ts)) == Times(ts.beats, Value(BeatDuration(ts)))
    ensures Value(BarDuration(ts)) > 0.0 <==> PositiveBar(ts)
  {
    MakeValueSigned(1, ts.beatUnit);
    BarValue(ts);
  }

  lemma {:induction false} BarValue(ts: TimeSignature)
    requires ts.beatUnit != 0
    ensures Wf(BarDuration(ts)) && Value(BarDuration(ts)) == ts.beats as real / ts.beatUnit as real
    ensures Value(BarDuration(ts)) == Times(ts.beats, 1.0 / ts.beatUnit as real)
    ensures Value(BarDuration(ts)) > 0.0 <==> PositiveBar(ts)
  {
    MakeValueSigned(ts.beats, ts.beatUnit);
    QuotientFacts(ts.beats, ts.beatUnit);
  }

  /** With a positive beat unit the beat is the unit fraction itself. */
  lemma {:induction false} BeatIsUnitFraction(ts: TimeSignature)
    requires ts.beatUnit > 0
    ensures BeatDuration(ts) == Duration(1, ts.beatUnit)
  {
    GcdDivides(1, ts.beatUnit);
  }

  // ----- classification -----

  predicate IsSimple(ts: TimeSignature) {
    ts.beats == 2 || ts.beats == 3 || ts.beats == 4
  }

  predicate IsCompound(ts: TimeSignature) {
    ts.beats >= 6 && ts.beats % 3 == 0
  }

  predicate IsIrregular(ts: TimeSignature) {
    !IsSimple(ts) && !IsCompound(ts)
  }

  /** Every signature is in exactly one of the three classes. */
  lemma {:induction false} ExactlyOneClass(ts: TimeSignature)
    ensures (if IsSimple(ts) then 1 else 0) + (if IsCompound(ts) then 1 else 0)
          + (if IsIrregular(ts) then 1 else 0) == 1
  {
  }

  /** Compound signatures count pulses of three beats. */
  function PulseCount(ts: TimeSignature): int {
    if IsCompound(ts) then ts.beats / 3 else ts.beats
  }

  function PulseDuration(ts: TimeSignature): Duration {
    if IsCompound(ts) then Make(3, ts.beatUnit) else BeatDuration(ts)
  }

  /** The pulses fill the bar exactly; a compound pulse is three beats and a
      compound bar three beats per pulse. */
  lemma {:induction false} PulsesFillBar(ts: TimeSignature)
    requires ts.beatUnit != 0
    ensures Wf(PulseDuration(ts)) && Wf(BeatDuration(ts)) && Wf(BarDuration(ts))
    ensures Times(PulseCount(ts), Value(PulseDuration(ts))) == Value(BarDuration(ts))
    ensures IsCompound(ts) ==>
      ts.beats == 3 * PulseCount(ts) && Value(PulseDuration(ts)) == 3.0 * Value(BeatDuration(ts))
    ensures !IsCompound(ts) ==> PulseCount(ts) == ts.beats && PulseDuration(ts) == BeatDuration(ts)
  {
    if IsCompound(ts) {
      CompoundFill(ts);
    } else {
      SignatureDurations(ts);
    }
  }

  lemma {:induction false} CompoundFill(ts: TimeSignature)
    requires ts.beatUnit != 0 && IsCompound(ts)
    ensures Wf(PulseDuration(ts)) && Wf(BeatDuration(ts)) && Wf(BarDuration(ts))
    ensures Times(PulseCount(ts), Value(PulseDuration(ts))) == Value(BarDuration(ts))
    ensures ts.beats == 3 * PulseCount(ts) && Value(PulseDuration(ts)) == 3.0 * Value(BeatDuration(ts))
  {
    var k := ts.beats / 3;
    assert ts.beats == 3 * k;
    PulseOfThree(ts.beatUnit);
    CompoundPulseFill(k, ts.beatUnit);
  }

  // ----- whole bars -----

  /** `d` is exactly `bars` bars long. */
  predicate Fills(ts: TimeSignature, d: Duration, bars: int) {
    Eq(d, Mul(BarDuration(ts), bars))
  }

  /** `fills` compares values: it holds exactly when `d` is `bars` times the bar. */
  lemma {:induction false} FillsMeaning(ts: TimeSignature, d: Duration, bars: int)
    requires ts.beatUnit != 0 && Wf(d)
    ensures Wf(BarDuration(ts))
    ensures Fills(ts, d, bars) <==> Value(d) == Times(bars, Value(BarDuration(ts)))
  {
    BarSign(ts);
    MulValue(BarDuration(ts), bars);
    CompareIsByValue(d, Mul(BarDuration(ts), bars));
  }

  /** Integer division rounding toward zero, as C++ `/` does. */
  function TruncDiv(a: int, b: int): (q: int)
    requires b != 0
    ensures a >= 0 && b > 0 ==> q == a / b
  {
    var q := Abs(a) / Abs(b);
    if (a < 0) == (b < 0) then q else -q
  }

  /** Whole bars in `d`, by truncating division of the cross products; zero
      when the divisor vanishes. */
  function BarCount(ts: TimeSignature, d: Duration): int {
    WholeCount(d, BarDuration(ts))
  }

  /** What is left of `d` after its whole bars. */
  function Remainder(ts: TimeSignature, d: Duration): Duration {
    Leftover(d, BarDuration(ts))
  }

  /** Whole units `u` in `d`, for any unit. */
  function WholeCount(d: Duration, u: Duration): int {
    var total, perUnit := d.num * u.den, d.den * u.num;
    if perUnit == 0 then 0 else TruncDiv(total, perUnit)
  }

  /** `d` less its whole units `u`. */
  function Leftover(d: Duration, u: Duration): Duration {
    Add(d, Make(-(u.num * WholeCount(d, u)), u.den))
  }

  /** For a non-negative duration and a positive bar, `bar_count` is the
      number of whole bars and `remainder` the rest: `d` is `bar_count` bars
      plus the remainder, and the remainder is shorter than a bar. */
  lemma {:induction false} WholeBars(ts: TimeSignature, d: Duration)
    requires PositiveBar(ts) && Wf(d) && Value(d) >= 0.0
    ensures ts.beatUnit != 0 && Wf(BarDuration(ts)) && Value(BarDuration(ts)) > 0.0
    ensures BarCount(ts, d) >= 0 && Reduced(Remainder(ts, d))
    ensures Value(d) == Times(BarCount(ts, d), Value(BarDuration(ts))) + Value(Remainder(ts, d))
    ensures 0.0 <= Value(Remainder(ts, d)) < Value(BarDuration(ts))
  {
    assert ts.beatUnit != 0;
    BarSign(ts);
    var bar := BarDuration(ts);
    NumeratorSign(bar);
    NumeratorSign(d);
    WholeUnits(d, bar);
  }

  /** Splitting a non-negative duration into whole units of a positive
      duration `u`, by the cross products' quotient. */
  lemma {:induction false} WholeUnits(d: Duration, u: Duration)
    requires Wf(d) && Wf(u) && u.num > 0 && d.num >= 0
    ensures d.den * u.num > 0 && d.num * u.den >= 0
    ensures WholeCount(d, u) >= 0 && Reduced(Leftover(d, u))
    ensures Value(d) == Times(WholeCount(d, u), Value(u)) + Value(Leftover(d, u))
    ensures 0.0 <= Value(Leftover(d, u)) < Value(u)
  {
    var q := (d.num * u.den) / (d.den * u.num);
    EuclideanUnits(d, u, q);
    CountIsQuotient(d, u, q);
    assert Leftover(d, u) == Add(d, Make(-(u.num * q), u.den));
  }

  lemma {:induction false} CountIsQuotient(d: Duration, u: Duration, q: int)
    requires d.den * u.num > 0 && d.num * u.den >= 0 && q == (d.num * u.den) / (d.den * u.num)
    ensures WholeCount(d, u) == q
  {
  }

  lemma {:induction false} EuclideanUnits(d: Duration, u: Duration, q: int)
    requires Wf(d) && Wf(u) && u.num > 0 && d.num >= 0
    requires d.den * u.num != 0 && q == (d.num * u.den) / (d.den * u.num)
    ensures d.den * u.num > 0 && d.num * u.den >= 0
    ensures var rest := Add(d, Make(-(u.num * q), u.den));
      q >= 0 && Reduced(rest) && Value(d) == Times(q, Value(u)) + Value(rest) &&
      0.0 <= Value(rest) < Value(u)
  {
    QuotientOfDurations(d, u);
    TakeBars(d, u, q);
    var rest := Add(d, Make(-(u.num * q), u.den));
    SplitByRest(Value(d), Times(q, Value(u)), Value(rest), Value(u),
                ((d.num * u.den) % (d.den * u.num)) as real / (d.den * u.den) as real);
  }

  lemma {:induction false} SplitByRest(x: real, whole: real, rest: real, unit: real, y: real)
    requires x == whole + y && 0.0 <= y < unit && rest == x - whole
    ensures x == whole + rest && 0.0 <= rest < unit
  {
  }

  /** `time_signature::str`: beats, a slash, the beat unit. */
  function Str(ts: TimeSignature): string {
    IntToString(ts.beats) + "/" + IntToString(ts.beatUnit)
  }

  // ----- positions in a bar -----

  /** A bar number and the time elapsed since that bar's start. */
  datatype MetricPosition = MetricPosition(bar: int, offset: Duration)

  /** The first position of a piece: bar 0, offset `0/1`. */
  const Start := MetricPosition(0, Duration(0, 1))

  predicate IsDownbeat(p: MetricPosition) {
    Eq(p.offset, Duration(0, 1))
  }

  /** The offset is a whole number of beats; true when the divisor vanishes.
      C++ `%` truncates, but its remainder is zero exactly when the Euclidean
      one is. */
  predicate IsOnBeat(p: MetricPosition, ts: TimeSignature) {
    var bd := BeatDuration(ts);
    var numer, denom := p.offset.num * bd.den, p.offset.den * bd.num;
    denom == 0 || numer % denom == 0
  }

  /** Index of the beat the offset falls in, by truncating division (the
      C++ code divides without a zero check, so the divisor must not vanish). */
  function BeatIndex(p: MetricPosition, ts: TimeSignature): int
    requires p.offset.den * BeatDuration(ts).num != 0
  {
    var bd := BeatDuration(ts);
    TruncDiv(p.offset.num * bd.den, p.offset.den * bd.num)
  }

  /** A downbeat is an offset of zero. */
  lemma {:induction false} DownbeatMeaning(p: MetricPosition)
    requires Wf(p.offset)
    ensures IsDownbeat(p) <==> Value(p.offset) == 0.0
  {
    NumeratorSign(p.offset);
  }

  /** For a non-negative offset and a positive beat unit, the beat index is
      the number of whole beats before the offset, and the position is on a
      beat exactly when the offset is that many whole beats. */
  lemma {:induction false} BeatPosition(p: MetricPosition, ts: TimeSignature)
    requires ts.beatUnit > 0 && Wf(p.offset) && Value(p.offset) >= 0.0
    ensures p.offset.den * BeatDuration(ts).num != 0 && Wf(BeatDuration(ts))
    ensures var i, beat := BeatIndex(p, ts), Value(BeatDuration(ts));
      i >= 0 && Times(i, beat) <= Value(p.offset) < Times(i + 1, beat)
    ensures IsOnBeat(p, ts) <==> Value(p.offset) == Times(BeatIndex(p, ts), Value(BeatDuration(ts)))
  {
    BeatIsUnitFraction(ts);
    var bd := BeatDuration(ts);
    NumeratorSign(p.offset);
    QuotientOfDurations(p.offset, bd);
    var i := BeatIndex(p, ts);
    assert i == (p.offset.num * bd.den) / (p.offset.den * bd.num);
    SuccTimes(i, Value(bd));
  }

  // ----- advancing a position -----

  /** When `advance_position` returns: the bar is positive, or the new offset
      is already shorter than a bar so that no bar is carried. */
  predicate Advances(pos: MetricPosition, d: Duration, ts: TimeSignature) {
    Wf(pos.offset) && Wf(d) && ts.beatUnit != 0 &&
    (PositiveBar(ts) || Compare(Add(pos.offset, d), BarDuration(ts)) == Less)
  }

  /** The position `d` later, in closed form: the offset grows by `d`, and
      when it reaches a bar its whole bars move into the bar counter. */
  function Advanced(pos: MetricPosition, d: Duration, ts: TimeSignature): (r: MetricPosition)
    requires Advances(pos, d, ts)
    ensures Reduced(r.offset)
  {
    var s := Add(pos.offset, d);
    AddValue(pos.offset, d);
    MakeIsReduced(pos.offset.num * d.den + d.num * pos.offset.den, pos.offset.den * d.den);
    if Compare(s, BarDuration(ts)) == Less then
      MetricPosition(pos.bar, s)
    else
      SignatureDurations(ts);
      CompareIsByValue(s, BarDuration(ts));
      WholeBars(ts, s);
      MetricPosition(pos.bar + BarCount(ts, s), Remainder(ts, s))
  }

  /** Time from the start of bar 0 to a position, for bars of length `b`. */
  ghost function Elapsed(p: MetricPosition, b: real): real
    requires Wf(p.offset)
  {
    Value(p.offset) + Times(p.bar, b)
  }

  /** Advancing keeps time: the elapsed time grows by exactly `d`, the offset
      ends shorter than a bar, the bar counter never goes back, and a
      non-negative new offset ends in `[0, bar)`. */
  lemma {:induction false} AdvanceKeepsTime(pos: MetricPosition, d: Duration, ts: TimeSignature)
    requires Advances(pos, d, ts)
    ensures Wf(BarDuration(ts))
    ensures var b := Value(BarDuration(ts));
      Elapsed(Advanced(pos, d, ts), b) == Elapsed(pos, b) + Value(d)
    ensures var r := Advanced(pos, d, ts);
      Value(r.offset) < Value(BarDuration(ts)) && r.bar >= pos.bar &&
      (Value(pos.offset) + Value(d) >= 0.0 ==> 0.0 <= Value(r.offset))
  {
    BarSign(ts);
    var s := Add(pos.offset, d);
    AddValue(pos.offset, d);
    var bar := BarDuration(ts);
    var b := Value(bar);
    CompareIsByValue(s, bar);
    var r := Advanced(pos, d, ts);
    if Compare(s, bar) != Less {
      WholeBars(ts, s);
      SumOfBars(pos.bar, BarCount(ts, s), b);
    }
  }

  lemma {:induction false} SumOfBars(a: int, c: int, b: real)
    ensures Times(a + c, b) == Times(a, b) + Times(c, b)
  {
  }

  /** `advance_position`: add `d` to the offset, then carry whole bars into
      the bar counter one at a time. */
  method AdvancePosition(pos: MetricPosition, d: Duration, ts: TimeSignature) returns (r: MetricPosition)
    requires Advances(pos, d, ts)
    ensures r == Advanced(pos, d, ts)
  {
    var offset := Add(pos.offset, d);
    var bar := pos.bar;
    var barDur := BarDuration(ts);
    ghost var s := offset;
    CarryingStarts(pos, d, ts);
    ghost var k := 0;
    while Compare(offset, barDur) != Less
      invariant Carrying(barDur, s, offset, k) && bar == pos.bar + k
      decreases WholeCount(s, barDur) - k
    {
      ghost var before, k0 := offset, k;
      offset := Add(offset, Make(-barDur.num, barDur.den));
      bar := bar + 1;
      k := k + 1;
      CarryStep(barDur, s, before, offset, k0, k);
    }
    if k > 0 {
      CarryStops(barDur, s, offset, k);
    }
    r := MetricPosition(bar, offset);
  }

  /** The state of the carrying loop of `advance_position` for a unit `u`
      after `k` units have moved out of the sum `s` into the counter: the
      offset is in lowest terms and `offset + k` units is still `s`; once a
      unit has been carried, the unit is positive and both the sum and the
      offset non-negative. */
  ghost predicate Carrying(u: Duration, s: Duration, offset: Duration, k: int) {
    Wf(s) && Wf(u) && Reduced(offset) && k >= 0 &&
    (Value(u) > 0.0 || Value(s) < Value(u)) &&
    Value(offset) + Times(k, Value(u)) == Value(s) &&
    (k == 0 ==> offset == s) &&
    (k > 0 ==> Value(u) > 0.0 && Value(offset) >= 0.0 && Value(s) >= 0.0)
  }

  lemma {:induction false} CarryingStarts(pos: MetricPosition, d: Duration, ts: TimeSignature)
    requires Advances(pos, d, ts)
    ensures Carrying(BarDuration(ts), Add(pos.offset, d), Add(pos.offset, d), 0)
  {
    AddValue(pos.offset, d);
    MakeIsReduced(pos.offset.num * d.den + d.num * pos.offset.den, pos.offset.den * d.den);
    BarSign(ts);
    CompareIsByValue(Add(pos.offset, d), BarDuration(ts));
  }

  /** One turn of the carrying loop: while the offset is at least a unit,
      taking one unit off keeps the loop state, and fewer than the whole
      units of `s` have been carried so far. */
  lemma {:induction false} CarryStep(u: Duration, s: Duration, offset: Duration, next: Duration, k: int, k': int)
    requires Carrying(u, s, offset, k) && Compare(offset, u) != Less
    requires next == Add(offset, Make(-u.num, u.den)) && k' == k + 1
    ensures Carrying(u, s, next, k') && k < WholeCount(s, u)
  {
    CompareIsByValue(offset, u);
    CarryCounted(u, s, offset, k);
    CarryOne(offset, next, u, k, k', Value(s));
  }

  /** An offset of at least a unit can only remain while the carried count
      is below the whole units of the sum. */
  lemma {:induction false} CarryCounted(u: Duration, s: Duration, offset: Duration, k: int)
    requires Carrying(u, s, offset, k) && Value(offset) >= Value(u)
    ensures Value(u) > 0.0 && Value(s) >= 0.0 && k < WholeCount(s, u)
  {
    var b := Value(u);
    if k == 0 {
      assert Value(s) >= b;
    }
    assert b > 0.0 && Value(s) >= 0.0;
    NumeratorSign(u);
    NumeratorSign(s);
    WholeUnits(s, u);
    CarryBelowCount(k, WholeCount(s, u), b, Value(offset), Value(Leftover(s, u)), Value(s));
  }

  /** Carrying one unit out of an offset of at least a unit keeps the total
      and leaves a non-negative offset in lowest terms. */
  lemma {:induction false} CarryOne(offset: Duration, next: Duration, u: Duration, k: int, k': int, total: real)
    requires Reduced(offset) && Wf(u) && Value(offset) >= Value(u)
    requires next == Add(offset, Make(-u.num, u.den)) && k' == k + 1
    requires Value(offset) + Times(k, Value(u)) == total
    ensures Reduced(next) && Value(next) >= 0.0 && Value(next) + Times(k', Value(u)) == total
  {
    TakeBars(offset, u, 1);
    assert -(u.num * 1) == -u.num;
    SuccTimes(k, Value(u));
  }

  /** When the carrying loop stops after carrying something, it has carried
      exactly the whole units of the sum and left their remainder. */
  lemma {:induction false} CarryStops(u: Duration, s: Duration, offset: Duration, k: int)
    requires Carrying(u, s, offset, k) && Compare(offset, u) == Less && k > 0
    ensures Compare(s, u) != Less && k == WholeCount(s, u) && offset == Leftover(s, u)
  {
    CompareIsByValue(offset, u);
    CarryCountExact(u, s, offset, k);
    CompareIsByValue(s, u);
    ReducedUnique(offset, Leftover(s, u));
  }

  lemma {:induction false} CarryCountExact(u: Duration, s: Duration, offset: Duration, k: int)
    requires Carrying(u, s, offset, k) && Value(offset) < Value(u) && k > 0
    ensures Value(s) >= Value(u) && k == WholeCount(s, u)
    ensures Reduced(Leftover(s, u)) && Value(offset) == Value(Leftover(s, u))
  {
    var b := Value(u);
    assert Value(s) >= b by {
      AtLeastOneUnit(k, b);
    }
    NumeratorSign(u);
    NumeratorSign(s);
    WholeUnits(s, u);
    QuotientUnique(k, WholeCount(s, u), b, Value(offset), Value(Leftover(s, u)));
  }

  /** What the carrying loop needs to know about the bar: it is well formed,
      and positive exactly for a positive signature. */
  lemma {:induction false} BarSign(ts: TimeSignature)
    requires ts.beatUnit != 0
    ensures Wf(BarDuration(ts)) && (Value(BarDuration(ts)) > 0.0 <==> PositiveBar(ts))
  {
    SignatureDurations(ts);
  }

  /** While a whole bar is still left, fewer bars have been carried than
      the total number of whole bars. */
  lemma {:induction false} CarryBelowCount(k: int, q: int, b: real, x: real, y: real, v: real)
    requires b > 0.0 && x >= b && y < b
    requires v == x + Times(k, b) && v == Times(q, b) + y
    ensures k < q
  {
    if k > q {
      TimesStrict(q, k, b);
    }
  }

  // ----- walking a sequence of events -----

  predicate AllWf(durs: seq<Duration>) {
    forall i | 0 <= i < |durs| :: Wf(durs[i])
  }

  /** Position reached after events of the given durations, from `Start`. */
  function EndPosition(durs: seq<Duration>, ts: TimeSignature): (r: MetricPosition)
    requires PositiveBar(ts) && AllWf(durs)
    ensures Reduced(r.offset)
    decreases |durs|
  {
    if durs == [] then Start
    else
      var n := |durs| - 1;
      Advanced(EndPosition(durs[..n], ts), durs[n], ts)
  }

  /** The positions `walk` hands to its callback, one per event: the
      position after all earlier events. */
  function WalkPositions(durs: seq<Duration>, ts: TimeSignature): (r: seq<MetricPosition>)
    requires PositiveBar(ts) && AllWf(durs)
    ensures |r| == |durs|
    decreases |durs|
  {
    if durs == [] then []
    else
      var n := |durs| - 1;
      WalkPositions(durs[..n], ts) + [EndPosition(durs[..n], ts)]
  }

  /** `walk`: the callback sees each event with the current position, then
      the position advances by the event's duration. The callback itself is
      not modelled; the result is the sequence of positions it is given. */
  method Walk(durs: seq<Duration>, ts: TimeSignature) returns (r: seq<MetricPosition>)
    requires PositiveBar(ts) && AllWf(durs)
    ensures r == WalkPositions(durs, ts)
  {
    var pos := MetricPosition(0, Duration(0, 1));
    r := [];
    for i := 0 to |durs|
      invariant r == WalkPositions(durs[..i], ts)
      invariant pos == EndPosition(durs[..i], ts)
    {
      assert durs[..i + 1][..i] == durs[..i];
      r := r + [pos];
      pos := AdvancePosition(pos, durs[i], ts);
    }
    assert durs[..|durs|] == durs;
  }

  /** Total length of a sequence of durations. */
  ghost function TotalValue(durs: seq<Duration>): real
    requires AllWf(durs)
    decreases |durs|
  {
    if durs == [] then 0.0 else TotalValue(durs[..|durs| - 1]) + Value(durs[|durs| - 1])
  }

  /** Sums of lengths add up over a concatenation. */
  lemma {:induction false} SumOfConcat(xs: seq<Duration>, ys: seq<Duration>)
    requires AllWf(xs) && AllWf(ys)
    ensures AllWf(xs + ys)
    ensures TotalValue(xs + ys) == TotalValue(xs) + TotalValue(ys)
    decreases |ys|
  {
    assert forall i | 0 <= i < |xs + ys| :: (xs + ys)[i] == if i < |xs| then xs[i] else ys[i - |xs|];
    if ys == [] {
      assert xs + ys == xs;
    } else {
      var n := |ys| - 1;
      assert (xs + ys)[..|xs + ys| - 1] == xs + ys[..n];
      SumOfConcat(xs, ys[..n]);
    }
  }

  /** No event runs backwards. */
  ghost predicate NonNegative(durs: seq<Duration>)
    requires AllWf(durs)
  {
    forall i | 0 <= i < |durs| :: Value(durs[i]) >= 0.0
  }

  /** After a run of events the position accounts for exactly their total
      length. */
  lemma {:induction false} EndPositionKeepsTime(durs: seq<Duration>, ts: TimeSignature)
    requires PositiveBar(ts) && AllWf(durs)
    ensures Wf(BarDuration(ts))
    ensures Elapsed(EndPosition(durs, ts), Value(BarDuration(ts))) == TotalValue(durs)
    decreases |durs|
  {
    assert ts.beatUnit != 0;
    SignatureDurations(ts);
    if durs != [] {
      var n := |durs| - 1;
      var prev := durs[..n];
      EndPositionKeepsTime(prev, ts);
      AdvanceKeepsTime(EndPosition(prev, ts), durs[n], ts);
    } else {
      assert Value(Start.offset) == 0.0;
    }
  }

  /** When no event is negative, every position reached has its offset in
      `[0, bar)` and a non-negative bar counter. */
  lemma {:induction false} EndPositionInBar(durs: seq<Duration>, ts: TimeSignature)
    requires PositiveBar(ts) && AllWf(durs) && NonNegative(durs)
    ensures Wf(BarDuration(ts))
    ensures var p := EndPosition(durs, ts);
      0.0 <= Value(p.offset) < Value(BarDuration(ts)) && p.bar >= 0
    decreases |durs|
  {
    assert ts.beatUnit != 0;
    SignatureDurations(ts);
    if durs != [] {
      var n := |durs| - 1;
      var prev := durs[..n];
      assert NonNegative(prev) by {
        forall i | 0 <= i < |prev| ensures Value(prev[i]) >= 0.0 {
          assert prev[i] == durs[i];
        }
      }
      EndPositionInBar(prev, ts);
      var pos := EndPosition(prev, ts);
      var r := EndPosition(durs, ts);
      assert r == Advanced(pos, durs[n], ts);
      assert Value(durs[n]) >= 0.0;
      AdvanceKeepsTime(pos, durs[n], ts);
    } else {
      NumeratorSign(BarDuration(ts));
    }
  }

  /** `walk` calls the callback once per event; the first call sees bar 0 at
      offset 0, and call `i` sees the position reached after the first `i`
      events. */
  lemma {:induction false} WalkVisitsEachEvent(durs: seq<Duration>, ts: TimeSignature, i: nat)
    requires PositiveBar(ts) && AllWf(durs) && i < |durs|
    ensures AllWf(durs[..i])
    ensures WalkPositions(durs, ts)[i] == EndPosition(durs[..i], ts)
    ensures i == 0 ==> WalkPositions(durs, ts)[i] == Start
    decreases |durs|
  {
    var n := |durs| - 1;
    if i < n {
      WalkVisitsEachEvent(durs[..n], ts, i);
      assert durs[..n][..i] == durs[..i];
    }
  }

  lemma SignatureExamples()
    ensures BeatDuration(CommonTime) == Quarter && BeatDuration(SixEight) == Duration(1, 8)
    ensures BarDuration(CommonTime) == Duration(1, 1) && BarDuration(SixEight) == Duration(3, 4)
    ensures IsSimple(Waltz) && IsSimple(Cut) && !IsSimple(SixEight) && !IsSimple(SevenEight)
    ensures IsCompound(SixEight) && IsCompound(NineEight) && IsCompound(TwelveEight) && !IsCompound(CommonTime)
    ensures IsIrregular(FiveFour) && IsIrregular(SevenEight) && !IsIrregular(SixEight)
    ensures PulseCount(SixEight) == 2 && PulseCount(TwelveEight) == 4 && PulseCount(Waltz) == 3
    ensures PulseDuration(SixEight) == Duration(3, 8) && PulseDuration(CommonTime) == Quarter
  {
  }

  lemma BarExamples()
    ensures Fills(CommonTime, Duration(1, 1), 1) && !Fills(CommonTime, Duration(1, 2), 1)
    ensures Fills(CommonTime, Duration(2, 1), 2)
    ensures BarCount(CommonTime, Duration(1, 1)) == 1 && BarCount(CommonTime, Duration(2, 1)) == 2
    ensures BarCount(CommonTime, Duration(1, 2)) == 0
    ensures Remainder(CommonTime, Duration(3, 2)) == Duration(1, 2)
  {
  }

  lemma PositionExamples()
    ensures IsDownbeat(Start) && !IsDownbeat(MetricPosition(1, Quarter))
    ensures IsOnBeat(Start, CommonTime) && IsOnBeat(MetricPosition(0, Quarter), CommonTime)
    ensures !IsOnBeat(MetricPosition(0, Duration(1, 8)), CommonTime)
    ensures BeatIndex(Start, CommonTime) == 0 && BeatIndex(MetricPosition(0, Quarter), CommonTime) == 1
    ensures BeatIndex(MetricPosition(0, Duration(1, 2)), CommonTime) == 2
  {
  }

  lemma StrExamples()
    ensures Str(CommonTime) == "4/4" && Str(SixEight) == "6/8"
  {
  }
}
