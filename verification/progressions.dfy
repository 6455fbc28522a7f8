/** Progressions: chord steps written as scale degrees (or as fixed roots),
    joined with `|`, and realised in a key as a chord sequence. A progression
    of `N` steps is a sequence of length `N`. */
module Progressions {
  import opened Intervals
  import opened Notes
  import opened Durations
  import opened Degrees
  import opened ChordPatterns
  import ChordSequence
  import Scales

  /** `progression_step<D, Tones>`: a chord pattern on a degree of the key
      (degree 0 uses the fixed `root` instead), held for `dur`, or a rest. */
  datatype ProgressionStep = ProgressionStep(deg: Degree, pattern: ChordPattern, dur: Duration, root: Note,
                                             isRest: bool)

  type Progression = seq<ProgressionStep>

  /** `step<D>(pattern, d)`: a chord on degree `D` of the key, whose number
      is at least 1 (the source's default length is a quarter). */
  function Step(deg: Degree, pattern: ChordPattern, d: Duration): (r: ProgressionStep)
    requires deg.num >= 1
    ensures r.deg == deg && IsSet(r.deg) && r.pattern == pattern && r.dur == d
    ensures r.root == DefaultNote && !r.isRest
  {
    ProgressionStep(deg, pattern, d, DefaultNote, false)
  }

  /** `nominal<Root>(pattern, d)`: a chord on a fixed root, with no degree. */
  function Nominal(root: Note, pattern: ChordPattern, d: Duration): (r: ProgressionStep)
    ensures r.deg == NoDegree && !IsSet(r.deg) && r.pattern == pattern && r.dur == d
    ensures r.root == root && !r.isRest
  {
    ProgressionStep(NoDegree, pattern, d, root, false)
  }

  /** `prog_rest(d)`: a rest of one tone, with no degree. */
  function ProgRest(d: Duration): (r: ProgressionStep)
    ensures r.deg == NoDegree && r.isRest && r.dur == d
    ensures r.pattern == ChordPattern([P1]) && r.root == DefaultNote
  {
    ProgressionStep(NoDegree, ChordPattern([P1]), d, DefaultNote, true)
  }

  // ----- realising one step -----

  /** The shift that alters a note by `alter` chromatic semitones while
      keeping its letter: `alter` times seven fifths down four octaves. */
  function Alteration(alter: int): (iv: Interval)
    ensures 7 * iv.fifths + 12 * iv.octaves == alter
  {
    Interval(7 * alter, -4 * alter)
  }

  /** A step can be realised in a key: its degree is 0 or names a note of
      the key. */
  predicate FitsKey(s: ProgressionStep, key: Scales.ScaleInstance) {
    0 <= s.deg.num <= |key.notes|
  }

  /** The root a degree step stands on: the key's note for the degree,
      altered when the degree is. */
  function DegreeRoot(s: ProgressionStep, key: Scales.ScaleInstance): Note
    requires 1 <= s.deg.num <= |key.notes|
  {
    var n := key.notes[s.deg.num - 1];
    if s.deg.alter != 0 then Plus(n, Alteration(s.deg.alter)) else n
  }

  /** The altered root sounds `alter` semitones from the key's note, in the
      same letter with `alter` more sharps (or flats when negative). */
  lemma {:induction false} DegreeRootFacts(s: ProgressionStep, key: Scales.ScaleInstance)
    requires 1 <= s.deg.num <= |key.notes|
    ensures var n, r := key.notes[s.deg.num - 1], DegreeRoot(s, key);
            Midi(r) == Midi(n) + s.deg.alter &&
            Pitch(r) == (Pitch(n) + s.deg.alter) % 12 &&
            LetterIndex(r) == LetterIndex(n) &&
            Accidentals(r) == Accidentals(n) + s.deg.alter
  {
    var n, r := key.notes[s.deg.num - 1], DegreeRoot(s, key);
    var a := s.deg.alter;
    if a != 0 {
      MidiPlus(n, Alteration(a));
      PitchIsMidiModOctave(r);
      PitchIsMidiModOctave(n);
      ShiftedMod(Midi(n), a);
      LetterShift(n.fifth + 1, a);
    }
  }

  /** Adding to a number adds to its remainder, up to a full turn. */
  lemma {:induction false} ShiftedMod(m: int, a: int)
    ensures (m + a) % 12 == (m % 12 + a) % 12
  {
    var q := m / 12;
    assert m + a == 12 * q + (m % 12 + a);
    assert (12 * q + (m % 12 + a)) % 12 == (m % 12 + a) % 12;
  }

  /** Seven fifths up keep the letter and add one sharp. */
  lemma {:induction false} LetterShift(k: int, a: int)
    ensures (k + 7 * a) % 7 == k % 7
    ensures (k + 7 * a) / 7 == k / 7 + a
  {
    var q := k / 7;
    assert k == 7 * q + k % 7;
    assert k + 7 * a == 7 * (q + a) + k % 7;
  }

  /** `detail::realize_step`: a degree step is the pattern on the key's
      (altered) note; a degree-0 step is a rest of default notes, or the
      pattern on its fixed root. The step's length is kept and the event is
      never tied. */
  function RealizeStep(s: ProgressionStep, key: Scales.ScaleInstance): (e: ChordSequence.ChordEvent)
    requires FitsKey(s, key)
    ensures e.dur == s.dur && !e.isTied
    ensures |e.chord.notes| == |s.pattern.intervals|
    ensures e.isRest <==> s.deg.num == 0 && s.isRest
  {
    if s.deg.num == 0 then
      if s.isRest then
        ChordSequence.ChordEvent(ChordInstance(seq(|s.pattern.intervals|, _ => DefaultNote)), s.dur, true, false)
      else
        ChordSequence.ChordEvent(Place(s.root, s.pattern), s.dur, false, false)
    else
      ChordSequence.ChordEvent(Place(DegreeRoot(s, key), s.pattern), s.dur, false, false)
  }

  /** Every tone of a realised chord lies its pattern interval above the
      root: the key's altered note for a degree step, the fixed root for a
      nominal step; a rest holds default notes only. */
  lemma {:induction false} RealizeStepTones(s: ProgressionStep, key: Scales.ScaleInstance, i: nat)
    requires FitsKey(s, key) && i < |s.pattern.intervals|
    ensures var e := RealizeStep(s, key);
            (s.deg.num >= 1 ==> Diff(e.chord.notes[i], DegreeRoot(s, key)) == s.pattern.intervals[i]) &&
            (s.deg.num == 0 && !s.isRest ==> Diff(e.chord.notes[i], s.root) == s.pattern.intervals[i]) &&
            (s.deg.num == 0 && s.isRest ==> e.chord.notes[i] == DefaultNote)
  {
  }

  /** The root of a degree step sounds the key's note moved by the
      alteration: a flat degree one semitone lower, a sharp one higher. */
  lemma {:induction false} RealizedRootSounds(s: ProgressionStep, key: Scales.ScaleInstance)
    requires 1 <= s.deg.num <= |key.notes| && |s.pattern.intervals| >= 1 && s.pattern.intervals[0] == P1
    ensures var e := RealizeStep(s, key);
            e.chord.notes[0] == DegreeRoot(s, key) &&
            Midi(e.chord.notes[0]) == Midi(key.notes[s.deg.num - 1]) + s.deg.alter
  {
    RealizeStepTones(s, key, 0);
    DegreeRootFacts(s, key);
  }

  // ----- progressions -----

  /** `step | step`: a progression of two. */
  function Pair(a: ProgressionStep, b: ProgressionStep): (r: Progression)
    ensures |r| == 2 && r[0] == a && r[1] == b
  {
    [a, b]
  }

  /** `progression | step`: one step longer, the new one last. */
  function Append(p: Progression, s: ProgressionStep): (r: Progression)
    ensures |r| == |p| + 1 && r[..|p|] == p && r[|p|] == s
  {
    p + [s]
  }

  /** `progression | progression`: the steps of the first, then of the
      second. */
  function Concat(a: Progression, b: Progression): (r: Progression)
    ensures |r| == |a| + |b| && r[..|a|] == a && r[|a|..] == b
  {
    a + b
  }

  predicate Fits(p: Progression, key: Scales.ScaleInstance) {
    forall i | 0 <= i < |p| :: FitsKey(p[i], key)
  }

  /** `realize(key)`: one event per step, in step order. */
  function Realize(p: Progression, key: Scales.ScaleInstance): (r: ChordSequence.ChordSeq)
    requires Fits(p, key)
    ensures |r| == |p|
  {
    seq(|p|, i requires 0 <= i < |p| && Fits(p, key) => RealizeStep(p[i], key))
  }

  /** The durations of the steps, in order. */
  function StepLengths(p: Progression): (r: seq<Duration>)
    ensures |r| == |p|
  {
    seq(|p|, i requires 0 <= i < |p| => p[i].dur)
  }

  /** Realising keeps the order and the timing: event `i` comes from step
      `i`, the lengths are the steps' lengths, and realising a joined
      progression joins the realisations. */
  lemma {:induction false} RealizeLaws(a: Progression, b: Progression, key: Scales.ScaleInstance)
    requires Fits(a, key) && Fits(b, key)
    ensures Fits(a + b, key)
    ensures forall i | 0 <= i < |a| :: Realize(a, key)[i] == RealizeStep(a[i], key)
    ensures ChordSequence.Lengths(Realize(a, key)) == StepLengths(a)
    ensures Realize(a + b, key) == Realize(a, key) + Realize(b, key)
  {
    var ab := a + b;
    assert forall i | 0 <= i < |ab| :: ab[i] == if i < |a| then a[i] else b[i - |a|];
    var r := Realize(ab, key);
    assert forall i | 0 <= i < |a| :: r[i] == Realize(a, key)[i];
    assert forall i | |a| <= i < |ab| :: r[i] == Realize(b, key)[i - |a|];
    assert ChordSequence.Lengths(Realize(a, key)) == StepLengths(a) by {
      var l := ChordSequence.Lengths(Realize(a, key));
      forall i | 0 <= i < |a| ensures l[i] == StepLengths(a)[i] {
        assert l[i] == Realize(a, key)[i].dur == RealizeStep(a[i], key).dur;
      }
    }
  }

  /** A realised progression lasts as long as its steps: its total is the
      same as that of any chord sequence with the steps' lengths. */
  lemma {:induction false} RealizeKeepsTotal(p: Progression, key: Scales.ScaleInstance, t: ChordSequence.ChordSeq)
    requires Fits(p, key) && ChordSequence.Lengths(t) == StepLengths(p)
    ensures ChordSequence.Total(Realize(p, key)) == ChordSequence.Total(t)
  {
    RealizeLaws(p, [], key);
    ChordSequence.TotalOfLengths(Realize(p, key), t);
  }

  /** Every step that realises as a sounding chord has at least one tone to
      analyse (a degree step sounds even when it is marked as a rest). */
  predicate Voiced(p: Progression) {
    forall i | 0 <= i < |p| :: !(p[i].deg.num == 0 && p[i].isRest) ==> |p[i].pattern.intervals| >= 1
  }

  lemma {:induction false} RealizedIsAnalysable(p: Progression, key: Scales.ScaleInstance)
    requires Fits(p, key) && Voiced(p)
    ensures ChordSequence.Analysable(Realize(p, key))
  {
    var r := Realize(p, key);
    forall i | 0 <= i < |r| && !r[i].isRest ensures |r[i].chord.notes| >= 1 {
      assert r[i] == RealizeStep(p[i], key);
    }
  }

  /** `str(key)`: the chord names of the realisation. */
  function Str(p: Progression, key: Scales.ScaleInstance): string
    requires Fits(p, key) && Voiced(p)
  {
    RealizedIsAnalysable(p, key);
    ChordSequence.Names(Realize(p, key))
  }

  /** `roman(key)`: the chord names in the key of the realisation. */
  function Roman(p: Progression, key: Scales.ScaleInstance): string
    requires Fits(p, key) && Voiced(p)
  {
    RealizedIsAnalysable(p, key);
    ChordSequence.Roman(Realize(p, key), key)
  }

  /** Both texts show "-" for step `i` exactly when it is a degree-0 rest;
      any other step is named from its realised chord. */
  lemma {:induction false} StepNames(p: Progression, key: Scales.ScaleInstance, i: nat)
    requires Fits(p, key) && Voiced(p) && i < |p|
    ensures ChordSequence.Analysable(Realize(p, key))
    ensures var e := RealizeStep(p[i], key);
            ChordSequence.NameList(Realize(p, key))[i] == ChordSequence.NameOf(e) &&
            ChordSequence.RomanList(Realize(p, key), key)[i] == ChordSequence.RomanOf(e, key)
    ensures ChordSequence.NameList(Realize(p, key))[i] == "-" <==> p[i].deg.num == 0 && p[i].isRest
    ensures p[i].deg.num == 0 && p[i].isRest ==> ChordSequence.RomanList(Realize(p, key), key)[i] == "-"
  {
    RealizedIsAnalysable(p, key);
    var e := RealizeStep(p[i], key);
    assert Realize(p, key)[i] == e;
    ChordSequence.NameOfMeaning(e);
  }

  /** The names of a joined progression are the two name texts with " - "
      between them. */
  lemma {:induction false} StrOfConcat(a: Progression, b: Progression, key: Scales.ScaleInstance)
    requires Fits(a, key) && Fits(b, key) && Voiced(a) && Voiced(b) && |a| >= 1 && |b| >= 1
    ensures Fits(a + b, key) && Voiced(a + b)
    ensures Str(a + b, key) == Str(a, key) + " - " + Str(b, key)
  {
    RealizeLaws(a, b, key);
    assert forall i | 0 <= i < |a + b| :: (a + b)[i] == if i < |a| then a[i] else b[i - |a|];
    RealizedIsAnalysable(a, key);
    RealizedIsAnalysable(b, key);
    ChordSequence.NamesOfConcat(Realize(a, key), Realize(b, key));
  }

  // ----- examples -----

  /** In C major, b7 stands on B-flat and #4 on F-sharp; both keep the key
      note's letter. */
  lemma {:induction false} AlteredDegreesInC(key: Scales.ScaleInstance)
    requires key.notes == [C, D, E, F, G, A, B]
    ensures DegreeRoot(Step(Degrees.Flat(7), MajorTriad, Quarter), key) == Bb
    ensures DegreeRoot(Step(Degrees.Sharp(4), MajorTriad, Quarter), key) == Fs
    ensures DegreeRoot(Step(Plain(5), Dom7, Quarter), key) == G
  {
  }

  lemma AlteredDegreesInCMajor()
    ensures DegreeRoot(Step(Degrees.Flat(7), MajorTriad, Quarter), Scales.ScaleOn(C, Scales.Major)) == Bb
    ensures DegreeRoot(Step(Degrees.Sharp(4), MajorTriad, Quarter), Scales.ScaleOn(C, Scales.Major)) == Fs
  {
    Scales.CMajorNotes(Scales.Major);
    AlteredDegreesInC(Scales.ScaleOn(C, Scales.Major));
  }

  /** A nominal step and a rest ignore the key. */
  lemma {:induction false} DegreeZeroSteps(key: Scales.ScaleInstance)
    ensures RealizeStep(Nominal(D, MinorTriad, Quarter), key).chord == Place(D, MinorTriad)
    ensures RealizeStep(ProgRest(Duration(1, 2)), key) == ChordSequence.ChordRest(Duration(1, 2))
  {
    var e := RealizeStep(ProgRest(Duration(1, 2)), key);
    assert e.chord.notes == [DefaultNote];
  }

  /** I - IV - V: three events, in order, on C, F and G. */
  lemma {:induction false} ThreeChordRealisation(key: Scales.ScaleInstance)
    requires key.notes == [C, D, E, F, G, A, B]
    ensures var p := Append(Pair(Step(Plain(1), MajorTriad, Quarter), Step(Plain(4), MajorTriad, Quarter)),
                            Step(Plain(5), MajorTriad, Duration(1, 2)));
            Fits(p, key) &&
            |Realize(p, key)| == 3 &&
            Realize(p, key)[0].chord == Place(C, MajorTriad) &&
            Realize(p, key)[1].chord == Place(F, MajorTriad) &&
            Realize(p, key)[2].chord == Place(G, MajorTriad) &&
            Realize(p, key)[2].dur == Duration(1, 2)
  {
    var p := Append(Pair(Step(Plain(1), MajorTriad, Quarter), Step(Plain(4), MajorTriad, Quarter)),
                    Step(Plain(5), MajorTriad, Duration(1, 2)));
    assert p[0].deg.num == 1 && p[1].deg.num == 4 && p[2].deg.num == 5;
    assert Fits(p, key);
    assert Realize(p, key)[0] == RealizeStep(p[0], key);
    assert Realize(p, key)[1] == RealizeStep(p[1], key);
    assert Realize(p, key)[2] == RealizeStep(p[2], key);
  }
}
