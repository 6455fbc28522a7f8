/** Melodies: sequences of timed note and rest events, with the classical
    transformations (transposition, retrograde, inversion, augmentation and
    diminution), summaries (lowest and highest note, range, total length,
    number of notes, membership in a key), repetition and rendering. A
    melody of `N` events is a sequence of length `N`. */
module Melody {
  import opened Common
  import opened Intervals
  import opened Notes
  import opened Durations
  import Scales
  import Timing

  /** One event: a pitch held for a duration, or a rest, possibly tied to
      the next event. */
  datatype MelodyEvent = MelodyEvent(pitch: Note, dur: Duration, isRest: bool, isTied: bool)

  type Melody = seq<MelodyEvent>

  /** `tied()`: the same event, tied to the next one. */
  function Tied(e: MelodyEvent): (r: MelodyEvent)
    ensures r.isTied
    ensures r.pitch == e.pitch && r.dur == e.dur && r.isRest == e.isRest
  {
    e.(isTied := true)
  }

  /** `note * duration`: a sounding, untied event. */
  function NoteEvent(n: Note, d: Duration): (r: MelodyEvent)
    ensures !r.isRest && !r.isTied && r.pitch == n && r.dur == d
  {
    MelodyEvent(n, d, false, false)
  }

  /** `rest(d)`: a silent, untied event carrying the default pitch. */
  function RestEvent(d: Duration): (r: MelodyEvent)
    ensures r.isRest && !r.isTied && r.dur == d && r.pitch == DefaultNote
  {
    MelodyEvent(DefaultNote, d, true, false)
  }

  // ----- building melodies -----

  /** `melody | event`: one more event at the end. */
  function Append(m: Melody, e: MelodyEvent): (r: Melody)
    ensures |r| == |m| + 1 && r[..|m|] == m && r[|m|] == e
  {
    m + [e]
  }

  /** `melody | melody`: the events of `a` followed by those of `b`. */
  function Concat(a: Melody, b: Melody): (r: Melody)
    ensures |r| == |a| + |b| && r[..|a|] == a && r[|a|..] == b
  {
    a + b
  }

  /** `event | event`: a melody of two events. */
  function Pair(a: MelodyEvent, b: MelodyEvent): (r: Melody)
    ensures r == Append(Append([], a), b)
  {
    [a, b]
  }

  /** Concatenation is associative, and appending an event is concatenating
      a one-event melody. */
  lemma {:induction false} ConcatLaws(a: Melody, b: Melody, c: Melody, e: MelodyEvent)
    ensures Concat(Concat(a, b), c) == Concat(a, Concat(b, c))
    ensures Append(a, e) == Concat(a, [e])
    ensures Concat(a, []) == a && Concat([], a) == a
  {
    assert (a + b) + c == a + (b + c);
    assert a + [] == a;
    assert [] + a == a;
  }

  // ----- transformations that keep the order of events -----

  function TransposeEvent(e: MelodyEvent, iv: Interval): MelodyEvent {
    if e.isRest then e else e.(pitch := Plus(e.pitch, iv))
  }

  /** `transpose(iv)`: every sounding pitch moved by `iv`. */
  function Transposed(m: Melody, iv: Interval): Melody {
    seq(|m|, i requires 0 <= i < |m| => TransposeEvent(m[i], iv))
  }

  method Transpose(m: Melody, iv: Interval) returns (r: Melody)
    ensures r == Transposed(m, iv)
  {
    r := m;
    for i := 0 to |r|
      invariant |r| == |m|
      invariant forall j | 0 <= j < i :: r[j] == TransposeEvent(m[j], iv)
      invariant forall j | i <= j < |r| :: r[j] == m[j]
    {
      if !r[i].isRest {
        r := r[i := r[i].(pitch := Plus(r[i].pitch, iv))];
      }
    }
  }

  /** `melody + iv`. */
  function TransposedUp(m: Melody, iv: Interval): (r: Melody)
    ensures r == Transposed(m, iv)
  {
    Transposed(m, iv)
  }

  /** `melody - iv`: transposition by the negated interval. */
  function TransposedDown(m: Melody, iv: Interval): (r: Melody)
    ensures r == Transposed(m, Neg(iv))
  {
    Transposed(m, Neg(iv))
  }

  /** Transposition moves each sounding pitch by the interval's exact size,
      keeps its duration and flags, and leaves rests untouched. */
  lemma {:induction false} TransposeAt(m: Melody, iv: Interval, i: int)
    requires 0 <= i < |m|
    ensures |Transposed(m, iv)| == |m|
    ensures var e, r := m[i], Transposed(m, iv)[i];
      r.dur == e.dur && r.isRest == e.isRest && r.isTied == e.isTied &&
      (e.isRest ==> r == e) &&
      (!e.isRest ==> r.pitch == Plus(e.pitch, iv) &&
                     Midi(r.pitch) == Midi(e.pitch) + 7 * iv.fifths + 12 * iv.octaves &&
                     Pitch(r.pitch) == (Pitch(e.pitch) + Semitones(iv)) % 12)
  {
    PitchPlus(m[i].pitch, iv);
  }

  /** `m - iv` undoes `m + iv`, and transpositions compose by adding their
      intervals. */
  lemma {:induction false} TransposeRoundTrip(m: Melody, a: Interval, b: Interval)
    ensures TransposedDown(TransposedUp(m, a), a) == m
    ensures Transposed(Transposed(m, a), b) == Transposed(m, Intervals.Add(a, b))
  {
    var up := TransposedUp(m, a);
    var down := TransposedDown(up, a);
    forall i | 0 <= i < |m| ensures down[i] == m[i] {
      ArithmeticLaws(m[i].pitch, m[i].pitch, a);
    }
  }

  function InvertEvent(e: MelodyEvent, axis: Note): MelodyEvent {
    if e.isRest then e else e.(pitch := Minus(axis, Diff(e.pitch, axis)))
  }

  /** `invert(axis)`: every sounding pitch reflected about `axis`. */
  function Inverted(m: Melody, axis: Note): Melody {
    seq(|m|, i requires 0 <= i < |m| => InvertEvent(m[i], axis))
  }

  method Invert(m: Melody, axis: Note) returns (r: Melody)
    ensures r == Inverted(m, axis)
  {
    r := m;
    for i := 0 to |r|
      invariant |r| == |m|
      invariant forall j | 0 <= j < i :: r[j] == InvertEvent(m[j], axis)
      invariant forall j | i <= j < |r| :: r[j] == m[j]
    {
      if !r[i].isRest {
        var iv := Diff(r[i].pitch, axis);
        r := r[i := r[i].(pitch := Minus(axis, iv))];
      }
    }
  }

  /** Inversion reflects MIDI numbers about the axis (so the axis itself is
      fixed), keeps durations and flags, and leaves rests untouched. */
  lemma {:induction false} InvertAt(m: Melody, axis: Note, i: int)
    requires 0 <= i < |m|
    ensures |Inverted(m, axis)| == |m|
    ensures var e, r := m[i], Inverted(m, axis)[i];
      r.dur == e.dur && r.isRest == e.isRest && r.isTied == e.isTied &&
      (e.isRest ==> r == e) &&
      (!e.isRest ==> Midi(r.pitch) == 2 * Midi(axis) - Midi(e.pitch) &&
                     Pitch(r.pitch) == (2 * Midi(axis) - Midi(e.pitch)) % 12 &&
                     (e.pitch == axis ==> r.pitch == axis))
  {
    var e, r := m[i], Inverted(m, axis)[i];
    if !e.isRest {
      PitchIsMidiModOctave(r.pitch);
    }
  }

  /** Inverting twice about the same axis gives the melody back. */
  lemma {:induction false} InvertTwice(m: Melody, axis: Note)
    ensures Inverted(Inverted(m, axis), axis) == m
  {
    var twice := Inverted(Inverted(m, axis), axis);
    forall i | 0 <= i < |m| ensures twice[i] == m[i] {
    }
  }

  /** `dur * 2`. */
  function Doubled(d: Duration): Duration {
    Mul(d, 2)
  }

  /** `duration{num, den * 2}`, normalised by the constructor. */
  function Halved(d: Duration): Duration {
    Make(d.num, d.den * 2)
  }

  function AugmentEvent(e: MelodyEvent): MelodyEvent {
    e.(dur := Doubled(e.dur))
  }

  function DiminishEvent(e: MelodyEvent): MelodyEvent {
    e.(dur := Halved(e.dur))
  }

  /** `augment()`: every duration doubled. */
  function Augmented(m: Melody): Melody {
    seq(|m|, i requires 0 <= i < |m| => AugmentEvent(m[i]))
  }

  /** `diminish()`: every duration halved. */
  function Diminished(m: Melody): Melody {
    seq(|m|, i requires 0 <= i < |m| => DiminishEvent(m[i]))
  }

  method Augment(m: Melody) returns (r: Melody)
    ensures r == Augmented(m)
  {
    r := m;
    for i := 0 to |r|
      invariant |r| == |m|
      invariant forall j | 0 <= j < i :: r[j] == AugmentEvent(m[j])
      invariant forall j | i <= j < |r| :: r[j] == m[j]
    {
      r := r[i := r[i].(dur := Mul(r[i].dur, 2))];
    }
  }

  method Diminish(m: Melody) returns (r: Melody)
    ensures r == Diminished(m)
  {
    r := m;
    for i := 0 to |r|
      invariant |r| == |m|
      invariant forall j | 0 <= j < i :: r[j] == DiminishEvent(m[j])
      invariant forall j | i <= j < |r| :: r[j] == m[j]
    {
      r := r[i := r[i].(dur := Make(r[i].dur.num, r[i].dur.den * 2))];
    }
  }

  /** Doubling and halving scale the length by two, in lowest terms. */
  lemma {:induction false} DoubledHalvedValue(d: Duration)
    requires Wf(d)
    ensures Reduced(Doubled(d)) && Value(Doubled(d)) == Times(2, Value(d))
    ensures Reduced(Halved(d)) && Times(2, Value(Halved(d))) == Value(d)
  {
    MulValue(d, 2);
    MakeIsReduced(d.num * 2, d.den);
    MakeValue(d.num, d.den * 2);
    MakeIsReduced(d.num, d.den * 2);
    HalfFraction(d.num, d.den);
  }

  lemma {:induction false} HalfFraction(n: int, d: int)
    requires d > 0
    ensures Times(2, n as real / (d * 2) as real) == n as real / d as real
  {
    var x := n as real / (d * 2) as real;
    assert x * (d * 2) as real == n as real;
    assert (2.0 * x) * d as real == n as real;
  }

  /** Halving undoes doubling and doubling undoes halving, for durations in
      lowest terms (every duration the constructor builds). */
  lemma {:induction false} HalveDoubleRoundTrip(d: Duration)
    requires Reduced(d)
    ensures Halved(Doubled(d)) == d && Doubled(Halved(d)) == d
  {
    DoubledHalvedValue(d);
    DoubledHalvedValue(Doubled(d));
    DoubledHalvedValue(Halved(d));
    ReducedUnique(Halved(Doubled(d)), d);
    ReducedUnique(Doubled(Halved(d)), d);
  }

  /** Augmentation and diminution change only durations: pitches and flags
      stay, and each length is doubled or halved. */
  lemma {:induction false} AugmentDiminishAt(m: Melody, i: int)
    requires 0 <= i < |m| && Wf(m[i].dur)
    ensures |Augmented(m)| == |m| && |Diminished(m)| == |m|
    ensures var e, a, h := m[i], Augmented(m)[i], Diminished(m)[i];
      a.pitch == e.pitch && a.isRest == e.isRest && a.isTied == e.isTied &&
      h.pitch == e.pitch && h.isRest == e.isRest && h.isTied == e.isTied &&
      Wf(a.dur) && Value(a.dur) == Times(2, Value(e.dur)) &&
      Wf(h.dur) && Times(2, Value(h.dur)) == Value(e.dur)
  {
    DoubledHalvedValue(m[i].dur);
  }

  /** Every duration in lowest terms. */
  predicate AllReduced(m: Melody) {
    forall i | 0 <= i < |m| :: Reduced(m[i].dur)
  }

  /** Diminution undoes augmentation and the other way round. */
  lemma {:induction false} AugmentDiminishRoundTrip(m: Melody)
    requires AllReduced(m)
    ensures Diminished(Augmented(m)) == m && Augmented(Diminished(m)) == m
  {
    var da, ad := Diminished(Augmented(m)), Augmented(Diminished(m));
    forall i | 0 <= i < |m| ensures da[i] == m[i] && ad[i] == m[i] {
      HalveDoubleRoundTrip(m[i].dur);
    }
  }

  // ----- retrograde -----

  function Untie(e: MelodyEvent): MelodyEvent {
    e.(isTied := false)
  }

  /** Every tie removed. */
  function Untied(m: Melody): Melody {
    seq(|m|, i requires 0 <= i < |m| => Untie(m[i]))
  }

  /** `retrograde()`: the events in reverse order, with no ties (a tie
      points forward and has no meaning backwards). */
  function Retrograded(m: Melody): Melody {
    seq(|m|, i requires 0 <= i < |m| => Untie(m[|m| - 1 - i]))
  }

  /** Reverses a copy in place by swapping from both ends, then clears the
      ties in a second pass. */
  method Retrograde(m: Melody) returns (r: Melody)
    ensures r == Retrograded(m)
  {
    r := m;
    var n := |r|;
    for i := 0 to n / 2
      invariant |r| == n
      invariant forall j {:trigger r[j]} | 0 <= j < n :: r[j] == (if j < i || n - i <= j then m[n - 1 - j] else m[j])
    {
      var t := r[i];
      r := r[i := r[n - 1 - i]][n - 1 - i := t];
    }
    for i := 0 to n
      invariant |r| == n
      invariant forall j | 0 <= j < i :: r[j] == Untie(m[n - 1 - j])
      invariant forall j | i <= j < n :: r[j] == m[n - 1 - j]
    {
      r := r[i := r[i].(isTied := false)];
    }
  }

  /** Event `i` of the retrograde is event `N - 1 - i` of the melody, untied. */
  lemma {:induction false} RetrogradeAt(m: Melody, i: int)
    requires 0 <= i < |m|
    ensures |Retrograded(m)| == |m|
    ensures var e, r := m[|m| - 1 - i], Retrograded(m)[i];
      !r.isTied && r.pitch == e.pitch && r.dur == e.dur && r.isRest == e.isRest
  {
    assert Retrograded(m)[i] == Untie(m[|m| - 1 - i]);
  }

  /** The retrograde of the retrograde is the melody without its ties, and
      the retrograde of a concatenation is the concatenation of the
      retrogrades the other way round. */
  lemma {:induction false} RetrogradeLaws(m: Melody, a: Melody, b: Melody)
    ensures Retrograded(Retrograded(m)) == Untied(m)
    ensures Retrograded(a + b) == Retrograded(b) + Retrograded(a)
  {
    var twice := Retrograded(Retrograded(m));
    assert |twice| == |m|;
    forall i | 0 <= i < |m| ensures twice[i] == Untied(m)[i] {
      assert twice[i] == Untie(Retrograded(m)[|m| - 1 - i]);
    }
    var l, r := Retrograded(a + b), Retrograded(b) + Retrograded(a);
    assert |l| == |r|;
    forall i | 0 <= i < |l| ensures l[i] == r[i] {
      var k := |a| + |b| - 1 - i;
      if i < |b| {
        assert (a + b)[k] == b[|b| - 1 - i];
      } else {
        assert (a + b)[k] == a[|a| - 1 - (i - |b|)];
      }
    }
  }

  // ----- lowest and highest notes, range -----

  /** `a` is strictly lower (or, for `highest`, strictly higher) than `b`. */
  predicate Beyond(a: Note, b: Note, highest: bool) {
    if highest then Midi(a) > Midi(b) else Midi(a) < Midi(b)
  }

  /** Index of the note that `lowest` (or `highest`) settles on: a later
      note replaces the current one only when it is strictly beyond it. */
  function ExtremeIndex(m: Melody, highest: bool): (r: Option<nat>)
    ensures r.Some? ==> r.value < |m| && !m[r.value].isRest
    decreases |m|
  {
    if m == [] then None
    else
      var n := |m| - 1;
      var prev := ExtremeIndex(m[..n], highest);
      if m[n].isRest then prev
      else if prev.None? || Beyond(m[n].pitch, m[prev.value].pitch, highest) then Some(n)
      else prev
  }

  /** The lowest (or highest) sounding pitch, or the default note when the
      melody has no sounding event. */
  function Extreme(m: Melody, highest: bool): Note {
    match ExtremeIndex(m, highest)
    case None => DefaultNote
    case Some(j) => m[j].pitch
  }

  /** There is an extreme note exactly when some event sounds; it is then a
      sounding pitch no other sounding pitch is beyond, and it is strictly
      beyond every sounding pitch before it: the first of the extreme notes. */
  lemma {:induction false} ExtremeIsFirstBest(m: Melody, highest: bool)
    ensures ExtremeIndex(m, highest).None? <==> forall k | 0 <= k < |m| :: m[k].isRest
    ensures ExtremeIndex(m, highest).Some? ==>
      var j := ExtremeIndex(m, highest).value;
      (forall k | 0 <= k < |m| && !m[k].isRest :: !Beyond(m[k].pitch, m[j].pitch, highest)) &&
      (forall k | 0 <= k < j && !m[k].isRest :: Beyond(m[j].pitch, m[k].pitch, highest))
    decreases |m|
  {
    if m != [] {
      var n := |m| - 1;
      var p := m[..n];
      ExtremeIsFirstBest(p, highest);
      assert forall k | 0 <= k < n :: p[k] == m[k];
    }
  }

  method FindExtreme(m: Melody, highest: bool) returns (r: Note)
    ensures r == Extreme(m, highest)
  {
    r := DefaultNote;
    var first := true;
    for i := 0 to |m|
      invariant first <==> ExtremeIndex(m[..i], highest).None?
      invariant r == Extreme(m[..i], highest)
    {
      assert m[..i + 1][..i] == m[..i];
      if !m[i].isRest {
        if first || Beyond(m[i].pitch, r, highest) {
          r := m[i].pitch;
          first := false;
        }
      }
    }
    assert m[..|m|] == m;
  }

  /** `lowest()`. */
  method Lowest(m: Melody) returns (r: Note)
    ensures r == Extreme(m, false)
  {
    r := FindExtreme(m, false);
  }

  /** `highest()`. */
  method Highest(m: Melody) returns (r: Note)
    ensures r == Extreme(m, true)
  {
    r := FindExtreme(m, true);
  }

  /** `range()`: the interval from the lowest note up to the highest. */
  function RangeOf(m: Melody): Interval {
    Diff(Extreme(m, true), Extreme(m, false))
  }

  method Range(m: Melody) returns (r: Interval)
    ensures r == RangeOf(m)
  {
    var hi := Highest(m);
    var lo := Lowest(m);
    r := Diff(hi, lo);
  }

  /** The range spans exactly the MIDI distance from the lowest to the
      highest note, which is never negative; a melody of rests has the
      unison as its range. */
  lemma {:induction false} RangeFacts(m: Melody)
    ensures Midi(Plus(Extreme(m, false), RangeOf(m))) == Midi(Extreme(m, true))
    ensures Midi(Extreme(m, false)) <= Midi(Extreme(m, true))
    ensures (forall k | 0 <= k < |m| :: m[k].isRest) ==> RangeOf(m) == P1
  {
    ExtremeIsFirstBest(m, false);
    ExtremeIsFirstBest(m, true);
    var lo, hi := ExtremeIndex(m, false), ExtremeIndex(m, true);
    if lo.Some? {
      assert !Beyond(m[lo.value].pitch, m[hi.value].pitch, true);
    }
  }


  // ----- total length and number of notes -----

  /** `total_duration()`: the durations of all events, rests included,
      added from `0/1` in order. */
  function Total(m: Melody): Duration
    decreases |m|
  {
    if m == [] then Duration(0, 1)
    else Durations.Add(Total(m[..|m| - 1]), m[|m| - 1].dur)
  }

  method TotalDuration(m: Melody) returns (sum: Duration)
    ensures sum == Total(m)
  {
    sum := Duration(0, 1);
    for i := 0 to |m|
      invariant sum == Total(m[..i])
    {
      assert m[..i + 1][..i] == m[..i];
      sum := Durations.Add(sum, m[i].dur);
    }
    assert m[..|m|] == m;
  }

  /** The durations of the events, in order. */
  function Lengths(m: Melody): (r: seq<Duration>)
    ensures |r| == |m|
  {
    seq(|m|, i requires 0 <= i < |m| => m[i].dur)
  }

  /** The lengths of a prefix or of a concatenation. */
  lemma {:induction false} LengthsSplit(a: Melody, b: Melody, n: nat)
    requires n <= |a|
    ensures Lengths(a + b) == Lengths(a) + Lengths(b)
    ensures Lengths(a[..n]) == Lengths(a)[..n]
    ensures Timing.AllWf(Lengths(a + b)) <==> Timing.AllWf(Lengths(a)) && Timing.AllWf(Lengths(b))
    ensures Timing.AllWf(Lengths(a)) ==> Timing.AllWf(Lengths(a[..n]))
  {
    var l := Lengths(a + b);
    assert forall i | 0 <= i < n :: Lengths(a[..n])[i] == Lengths(a)[i];
    assert forall i | 0 <= i < |a| :: l[i] == Lengths(a)[i];
    assert forall i | |a| <= i < |l| :: l[i] == Lengths(b)[i - |a|];
    assert l == Lengths(a) + Lengths(b);
    if Timing.AllWf(Lengths(a)) && Timing.AllWf(Lengths(b)) {
      assert forall i | 0 <= i < |l| :: Wf(l[i]) by {
        forall i | 0 <= i < |l| ensures Wf(l[i]) {
          if i >= |a| {
            assert Wf(Lengths(b)[i - |a|]);
          }
        }
      }
    }
    if Timing.AllWf(l) {
      assert forall i | 0 <= i < |b| :: Wf(Lengths(b)[i]) by {
        forall i | 0 <= i < |b| ensures Wf(Lengths(b)[i]) {
          assert l[|a| + i] == Lengths(b)[i];
        }
      }
    }
  }

  /** The total is the sum of the lengths of all events. */
  lemma {:induction false} TotalIsSum(m: Melody)
    requires Timing.AllWf(Lengths(m))
    ensures Wf(Total(m)) && Value(Total(m)) == Timing.TotalValue(Lengths(m))
    decreases |m|
  {
    if m != [] {
      var n := |m| - 1;
      LengthsSplit(m, [], n);
      TotalIsSum(m[..n]);
      assert Wf(m[n].dur) by { assert Lengths(m)[n] == m[n].dur; }
      AddValue(Total(m[..n]), m[n].dur);
    }
  }

  /** The total of a concatenation is the sum of the totals. */
  lemma {:induction false} TotalOfConcat(a: Melody, b: Melody)
    requires Timing.AllWf(Lengths(a)) && Timing.AllWf(Lengths(b))
    ensures Timing.AllWf(Lengths(a + b))
    ensures Wf(Total(a)) && Wf(Total(b)) && Wf(Total(a + b))
    ensures Value(Total(a + b)) == Value(Total(a)) + Value(Total(b))
  {
    LengthsSplit(a, b, 0);
    TotalIsSum(a);
    TotalIsSum(b);
    TotalIsSum(a + b);
    Timing.SumOfConcat(Lengths(a), Lengths(b));
  }

  /** Lengths scaled one by one scale their sum. */
  lemma {:induction false} SumOfDoubled(xs: seq<Duration>, ys: seq<Duration>)
    requires Timing.AllWf(xs) && Timing.AllWf(ys) && |xs| == |ys|
    requires forall i | 0 <= i < |xs| :: Value(ys[i]) == Times(2, Value(xs[i]))
    ensures Timing.TotalValue(ys) == Times(2, Timing.TotalValue(xs))
    decreases |xs|
  {
    if xs != [] {
      var n := |xs| - 1;
      assert forall i | 0 <= i < n :: xs[..n][i] == xs[i] && ys[..n][i] == ys[i];
      SumOfDoubled(xs[..n], ys[..n]);
    }
  }

  /** Augmentation doubles the total length and diminution halves it. */
  lemma {:induction false} ScaledTotals(m: Melody)
    requires Timing.AllWf(Lengths(m))
    ensures Wf(Total(m)) && Wf(Total(Augmented(m))) && Wf(Total(Diminished(m)))
    ensures Value(Total(Augmented(m))) == Times(2, Value(Total(m)))
    ensures Times(2, Value(Total(Diminished(m)))) == Value(Total(m))
  {
    var xs, up, down := Lengths(m), Lengths(Augmented(m)), Lengths(Diminished(m));
    forall i | 0 <= i < |m|
      ensures Wf(up[i]) && Wf(down[i])
      ensures Value(up[i]) == Times(2, Value(xs[i])) && Times(2, Value(down[i])) == Value(xs[i])
    {
      assert Wf(xs[i]);
      assert up[i] == Doubled(xs[i]) && down[i] == Halved(xs[i]);
      DoubledHalvedValue(xs[i]);
    }
    TotalIsSum(m);
    TotalIsSum(Augmented(m));
    TotalIsSum(Diminished(m));
    SumOfDoubled(xs, up);
    SumOfDoubled(down, xs);
  }

  /** `note_count()`: the number of sounding events. */
  function Count(m: Melody): nat
    decreases |m|
  {
    if m == [] then 0
    else Count(m[..|m| - 1]) + (if m[|m| - 1].isRest then 0 else 1)
  }

  method NoteCount(m: Melody) returns (n: nat)
    ensures n == Count(m)
  {
    n := 0;
    for i := 0 to |m|
      invariant n == Count(m[..i])
    {
      assert m[..i + 1][..i] == m[..i];
      if !m[i].isRest {
        n := n + 1;
      }
    }
    assert m[..|m|] == m;
  }

  /** At most one note per event; no notes exactly when every event is a
      rest, and one per event exactly when none is. */
  lemma {:induction false} CountBounds(m: Melody)
    ensures Count(m) <= |m|
    ensures Count(m) == 0 <==> forall k | 0 <= k < |m| :: m[k].isRest
    ensures Count(m) == |m| <==> forall k | 0 <= k < |m| :: !m[k].isRest
    decreases |m|
  {
    if m != [] {
      var n := |m| - 1;
      CountBounds(m[..n]);
      assert forall k | 0 <= k < n :: m[..n][k] == m[k];
    }
  }

  /** The notes of a concatenation are those of its parts. */
  lemma {:induction false} CountOfConcat(a: Melody, b: Melody)
    ensures Count(a + b) == Count(a) + Count(b)
    decreases |b|
  {
    if b == [] {
      assert a + b == a;
    } else {
      var n := |b| - 1;
      assert (a + b)[..|a + b| - 1] == a + b[..n];
      CountOfConcat(a, b[..n]);
    }
  }

  /** Melodies with rests in the same places have the same number of notes. */
  lemma {:induction false} SameRestsSameCount(a: Melody, b: Melody)
    requires |a| == |b| && forall k | 0 <= k < |a| :: a[k].isRest == b[k].isRest
    ensures Count(a) == Count(b)
    decreases |a|
  {
    if a != [] {
      var n := |a| - 1;
      SameRestsSameCount(a[..n], b[..n]);
    }
  }

  /** No transformation turns a note into a rest or the other way round. */
  lemma {:induction false} TransformsKeepCount(m: Melody, iv: Interval, axis: Note)
    ensures Count(Transposed(m, iv)) == Count(m) && Count(Inverted(m, axis)) == Count(m)
    ensures Count(Augmented(m)) == Count(m) && Count(Diminished(m)) == Count(m)
    ensures Count(Retrograded(m)) == Count(m)
  {
    SameRestsSameCount(Transposed(m, iv), m);
    SameRestsSameCount(Inverted(m, axis), m);
    SameRestsSameCount(Augmented(m), m);
    SameRestsSameCount(Diminished(m), m);
    RetrogradeCount(m);
  }

  lemma {:induction false} RetrogradeCount(m: Melody)
    ensures Count(Retrograded(m)) == Count(m)
    decreases |m|
  {
    if m != [] {
      var n := |m| - 1;
      var p, last := m[..n], [m[n]];
      assert m == p + last;
      RetrogradeCount(p);
      RetrogradeLaws(m, p, last);
      CountOfConcat(Retrograded(last), Retrograded(p));
      CountOfConcat(p, last);
      assert Retrograded(last) == [Untie(m[n])];
      assert [Untie(m[n])][..0] == [] == last[..0];
    }
  }

  // ----- membership in a key -----

  /** `is_diatonic(key)`: every sounding pitch is spelled as in the key;
      rests are ignored. */
  predicate Diatonic(m: Melody, key: Scales.ScaleInstance) {
    forall i | 0 <= i < |m| :: !m[i].isRest ==> Scales.Contains(key, m[i].pitch)
  }

  method IsDiatonic(m: Melody, key: Scales.ScaleInstance) returns (b: bool)
    ensures b == Diatonic(m, key)
  {
    for i := 0 to |m|
      invariant forall j | 0 <= j < i :: !m[j].isRest ==> Scales.Contains(key, m[j].pitch)
    {
      if !m[i].isRest && !Scales.Contains(key, m[i].pitch) {
        return false;
      }
    }
    return true;
  }

  /** A concatenation is in the key exactly when both parts are, so adding
      a rest changes nothing. */
  lemma {:induction false} DiatonicOfConcat(a: Melody, b: Melody, d: Duration, key: Scales.ScaleInstance)
    ensures Diatonic(a + b, key) <==> Diatonic(a, key) && Diatonic(b, key)
    ensures Diatonic(Append(a, RestEvent(d)), key) <==> Diatonic(a, key)
  {
    assert forall i | 0 <= i < |a| :: (a + b)[i] == a[i];
    assert forall i | 0 <= i < |b| :: (a + b)[|a| + i] == b[i];
    assert Diatonic([RestEvent(d)], key);
    var c := a + [RestEvent(d)];
    assert forall i | 0 <= i < |a| :: c[i] == a[i];
    assert forall i | 0 <= i < |[RestEvent(d)]| :: c[|a| + i] == [RestEvent(d)][i];
  }

  /** Membership in a key depends only on which events sound and at what
      pitch: durations, ties and the order of events do not matter. */
  lemma {:induction false} DiatonicIgnoresTime(m: Melody, key: Scales.ScaleInstance)
    ensures Diatonic(Retrograded(m), key) <==> Diatonic(m, key)
    ensures Diatonic(Augmented(m), key) <==> Diatonic(m, key)
    ensures Diatonic(Diminished(m), key) <==> Diatonic(m, key)
  {
    DiatonicIgnoresOrder(m, key);
    assert forall i | 0 <= i < |m| :: Augmented(m)[i] == AugmentEvent(m[i]);
    assert forall i | 0 <= i < |m| :: Diminished(m)[i] == DiminishEvent(m[i]);
  }

  lemma {:induction false} DiatonicIgnoresOrder(m: Melody, key: Scales.ScaleInstance)
    ensures Diatonic(Retrograded(m), key) <==> Diatonic(m, key)
  {
    var r := Retrograded(m);
    assert forall i | 0 <= i < |m| :: r[i] == Untie(m[|m| - 1 - i]);
    assert forall i | 0 <= i < |m| :: r[|m| - 1 - i] == Untie(m[i]);
  }

  // ----- repetition -----

  /** `repeat<K>()`: `K` copies of the melody, back to back. */
  function Repeated(m: Melody, k: nat): Melody
    decreases k
  {
    if k == 0 then [] else Repeated(m, k - 1) + m
  }

  /** Copies the melody once per repetition into the next block. */
  method Repeat(m: Melody, k: nat) returns (r: Melody)
    ensures r == Repeated(m, k)
  {
    r := [];
    for j := 0 to k
      invariant r == Repeated(m, j)
    {
      r := r + m;
    }
  }

  lemma {:induction false} RepeatedLength(m: Melody, count: nat)
    ensures |Repeated(m, count)| == count * |m|
    decreases count
  {
    if count > 0 {
      RepeatedLength(m, count - 1);
      OneMoreBlock(count - 1, |m|);
    }
  }

  lemma {:induction false} OneMoreBlock(k: nat, n: nat)
    ensures (k + 1) * n == k * n + n
  {
  }

  /** `K` copies hold `K * N` events, and event `i` of copy `k` sits at
      index `k * N + i`. */
  lemma {:induction false} RepeatedAt(m: Melody, count: nat, k: nat, i: nat)
    requires k < count && i < |m|
    ensures |Repeated(m, count)| == count * |m|
    ensures k * |m| + i < count * |m| && Repeated(m, count)[k * |m| + i] == m[i]
    decreases count
  {
    var p := Repeated(m, count - 1);
    RepeatedLength(m, count);
    RepeatedLength(m, count - 1);
    OneMoreBlock(count - 1, |m|);
    if k < count - 1 {
      RepeatedAt(m, count - 1, k, i);
      assert (p + m)[k * |m| + i] == p[k * |m| + i];
    } else {
      assert k * |m| + i == |p| + i;
      assert (p + m)[|p| + i] == m[i];
    }
  }

  /** `K` copies hold `K` times the notes. */
  lemma {:induction false} RepeatedCount(m: Melody, count: nat)
    ensures Count(Repeated(m, count)) == count * Count(m)
    decreases count
  {
    if count > 0 {
      RepeatedCount(m, count - 1);
      CountOfConcat(Repeated(m, count - 1), m);
      OneMoreBlock(count - 1, Count(m));
    }
  }

  /** `K` copies last `K` times as long. */
  lemma {:induction false} RepeatedTotal(m: Melody, count: nat)
    requires Timing.AllWf(Lengths(m))
    ensures Timing.AllWf(Lengths(Repeated(m, count)))
    ensures Wf(Total(m)) && Wf(Total(Repeated(m, count)))
    ensures Value(Total(Repeated(m, count))) == Times(count, Value(Total(m)))
    decreases count
  {
    TotalIsSum(m);
    if count == 0 {
      assert Value(Total([])) == 0.0;
    } else {
      var p := Repeated(m, count - 1);
      RepeatedTotal(m, count - 1);
      TotalOfConcat(p, m);
      Timing.SuccTimes(count - 1, Value(Total(m)));
    }
  }

  // ----- walking with positions -----

  /** What the `walk` callback receives for one event. */
  datatype Visit = Visit(event: MelodyEvent, position: Timing.MetricPosition)

  /** Each event with the metric position at which it starts. */
  function Visits(m: Melody, ts: Timing.TimeSignature): (r: seq<Visit>)
    requires Timing.PositiveBar(ts) && Timing.AllWf(Lengths(m))
    ensures |r| == |m|
  {
    var ps := Timing.WalkPositions(Lengths(m), ts);
    seq(|m|, i requires 0 <= i < |m| => Visit(m[i], ps[i]))
  }

  /** `walk(ts, f)`: the callback is not modelled; the result is the
      sequence of calls it receives. */
  method Walk(m: Melody, ts: Timing.TimeSignature) returns (r: seq<Visit>)
    requires Timing.PositiveBar(ts) && Timing.AllWf(Lengths(m))
    ensures r == Visits(m, ts)
  {
    var ps := Timing.Walk(Lengths(m), ts);
    r := seq(|m|, i requires 0 <= i < |m| => Visit(m[i], ps[i]));
  }

  /** The callback sees every event once and in order; the first starts at
      bar 0, offset 0, and each later one where the events before it end,
      which is the total length of those events measured in bars. */
  lemma {:induction false} WalkVisitsEvents(m: Melody, ts: Timing.TimeSignature, i: nat)
    requires Timing.PositiveBar(ts) && Timing.AllWf(Lengths(m)) && i < |m|
    ensures Visits(m, ts)[i].event == m[i]
    ensures i == 0 ==> Visits(m, ts)[i].position == Timing.Start
    ensures Timing.AllWf(Lengths(m[..i])) && Wf(Total(m[..i])) && Wf(Timing.BarDuration(ts))
    ensures Visits(m, ts)[i].position == Timing.EndPosition(Lengths(m[..i]), ts)
    ensures Wf(Visits(m, ts)[i].position.offset)
    ensures Timing.Elapsed(Visits(m, ts)[i].position, Value(Timing.BarDuration(ts))) == Value(Total(m[..i]))
  {
    LengthsSplit(m, [], i);
    Timing.WalkVisitsEachEvent(Lengths(m), ts, i);
    Timing.EndPositionKeepsTime(Lengths(m[..i]), ts);
    TotalIsSum(m[..i]);
  }

  // ----- text -----

  /** `str()` of one event: the pitch name, or "-" for a rest, then the
      duration in parentheses, then "~" when a sounding event is tied. */
  function EventStr(e: MelodyEvent): string {
    if e.isRest then "-(" + Durations.Str(e.dur) + ")"
    else Notes.Str(e.pitch) + "(" + Durations.Str(e.dur) + ")" + (if e.isTied then "~" else "")
  }

  /** The text tells rests from notes by its first character and tied notes
      from the rest by its last. */
  lemma {:induction false} EventStrShape(e: MelodyEvent)
    ensures |EventStr(e)| >= 3
    ensures EventStr(e)[0] == '-' <==> e.isRest
    ensures EventStr(e)[|EventStr(e)| - 1] == '~' <==> !e.isRest && e.isTied
  {
    if !e.isRest {
      var name := Notes.Str(e.pitch);
      assert name[0] == PitchName(e.pitch)[0] == Letters[LetterIndex(e.pitch)];
      assert forall k | 0 <= k < 7 :: Letters[k] != '-';
    }
  }

  function Parts(m: Melody): (r: seq<string>)
    ensures |r| == |m|
  {
    seq(|m|, i requires 0 <= i < |m| => EventStr(m[i]))
  }

  /** `str()` of a melody: the events' texts separated by single spaces. */
  function Str(m: Melody): string {
    Join(Parts(m), " ")
  }

  method Render(m: Melody) returns (s: string)
    ensures s == Str(m)
  {
    s := JoinParts(Parts(m), " ");
  }

  /** The text of a concatenation is the two texts with one space between. */
  lemma {:induction false} StrOfConcat(a: Melody, b: Melody)
    requires |a| >= 1 && |b| >= 1
    ensures Str(a + b) == Str(a) + " " + Str(b)
  {
    assert Parts(a + b) == Parts(a) + Parts(b);
    JoinConcat(Parts(a), Parts(b), " ");
  }

  // ----- examples -----

  // C4, D4, E4 and G4 (`C(4)` and so on), written out.
  const C4 := Note(0, 4)
  const D4 := Note(2, 3)
  const E4 := Note(4, 2)
  const G4 := Note(1, 4)

  lemma TransposeExamples()
    ensures Transposed([NoteEvent(C4, Quarter), NoteEvent(E4, Quarter)], M3)[0].pitch == E4
    ensures Pitch(Transposed([NoteEvent(C4, Quarter), NoteEvent(E4, Quarter)], M3)[1].pitch) == Pitch(Gs)
    ensures Transposed([RestEvent(Quarter)], P8) == [RestEvent(Quarter)]
  {
  }

  lemma InvertExamples()
    ensures InvertEvent(NoteEvent(E4, Quarter), C4).pitch.fifth == Ab.fifth
    ensures Inverted([NoteEvent(G4, Quarter)], C4)[0].pitch.fifth == F.fifth
  {
  }

  lemma LengthExamples()
    ensures Doubled(Quarter) == Duration(1, 2) && Halved(Duration(1, 2)) == Quarter
  {
    DoubledHalvedValue(Quarter);
    DoubledHalvedValue(Duration(1, 2));
    ReducedUnique(Doubled(Quarter), Duration(1, 2));
    ReducedUnique(Halved(Duration(1, 2)), Quarter);
  }

  /** A sum is known once its value is: the constructor's result is the
      only duration in lowest terms with that value. */
  lemma {:induction false} SumIs(a: Duration, b: Duration, c: Duration)
    requires Wf(a) && Wf(b) && Reduced(c) && Value(a) + Value(b) == Value(c)
    ensures Durations.Add(a, b) == c
  {
    AddValue(a, b);
    MakeIsReduced(a.num * b.den + b.num * a.den, a.den * b.den);
    ReducedUnique(Durations.Add(a, b), c);
  }

  lemma SumExamples()
    ensures Durations.Add(Duration(0, 1), Quarter) == Quarter
    ensures Durations.Add(Quarter, Quarter) == Duration(1, 2)
    ensures Durations.Add(Duration(1, 2), Duration(1, 2)) == Duration(1, 1)
  {
    assert Gcd(1, 4) == Gcd(4, 1) == Gcd(1, 0) == 1;
    assert Gcd(8, 16) == Gcd(16, 8) == Gcd(8, 0) == 8;
    assert Gcd(4, 4) == Gcd(4, 0) == 4;
  }

  lemma ExtremeExamples()
    ensures Extreme([NoteEvent(E4, Quarter), NoteEvent(C4, Quarter), NoteEvent(G4, Quarter)], false) == C4
    ensures Extreme([NoteEvent(E4, Quarter), NoteEvent(C4, Quarter), NoteEvent(G4, Quarter)], true) == G4
  {
    var m := [NoteEvent(E4, Quarter), NoteEvent(C4, Quarter), NoteEvent(G4, Quarter)];
    assert m[..2][..1] == [NoteEvent(E4, Quarter)];
    assert m[..2] == [NoteEvent(E4, Quarter), NoteEvent(C4, Quarter)];
    assert Midi(E4) == 64 && Midi(C4) == 60 && Midi(G4) == 67;
    assert ExtremeIndex(m[..2][..1], false) == Some(0) == ExtremeIndex(m[..2][..1], true);
    assert ExtremeIndex(m[..2], false) == Some(1);
    assert ExtremeIndex(m[..2], true) == Some(0);
    assert ExtremeIndex(m, false) == Some(1);
    assert ExtremeIndex(m, true) == Some(2);
  }

  lemma RangeExample()
    ensures RangeOf([NoteEvent(C4, Quarter), NoteEvent(G4, Quarter)]) == P5
  {
    var r := [NoteEvent(C4, Quarter), NoteEvent(G4, Quarter)];
    assert r[..1] == [NoteEvent(C4, Quarter)];
    assert ExtremeIndex(r[..1], true) == Some(0) && ExtremeIndex(r[..1], false) == Some(0);
    assert Extreme(r, true) == G4;
    assert Extreme(r, false) == C4;
  }

  lemma CountExample()
    ensures Count([NoteEvent(C4, Quarter), RestEvent(Quarter), NoteEvent(E4, Quarter)]) == 2
  {
    var a, b := [NoteEvent(C4, Quarter), RestEvent(Quarter)], [NoteEvent(E4, Quarter)];
    assert a[..1] == [NoteEvent(C4, Quarter)];
    CountOfConcat(a, b);
    assert a + b == [NoteEvent(C4, Quarter), RestEvent(Quarter), NoteEvent(E4, Quarter)];
  }

  /** The total grows by one event's length at a time. */
  lemma {:induction false} TotalAppend(m: Melody, e: MelodyEvent)
    ensures Total(m + [e]) == Durations.Add(Total(m), e.dur)
  {
    assert (m + [e])[..|m|] == m;
  }

  lemma TotalExample()
    ensures Total([NoteEvent(C4, Quarter), NoteEvent(D4, Quarter), NoteEvent(E4, Duration(1, 2))]) == Duration(1, 1)
  {
    var a, b, c := NoteEvent(C4, Quarter), NoteEvent(D4, Quarter), NoteEvent(E4, Duration(1, 2));
    SumExamples();
    TotalAppend([], a);
    assert Total([a]) == Quarter;
    TotalAppend([a], b);
    assert [a] + [b] == [a, b];
    TotalAppend([a, b], c);
    assert [a, b] + [c] == [a, b, c];
  }

  lemma RepeatExample()
    ensures |Repeated([NoteEvent(C4, Quarter), NoteEvent(E4, Quarter)], 3)| == 6
    ensures Repeated([NoteEvent(C4, Quarter), NoteEvent(E4, Quarter)], 3)[4].pitch == C4
  {
    RepeatedAt([NoteEvent(C4, Quarter), NoteEvent(E4, Quarter)], 3, 2, 0);
  }
}
