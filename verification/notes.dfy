/** Notes on the line-of-fifths lattice: a note is a number of perfect fifths
    above C plus an octave correction, so that C# and Db stay distinct while
    both reduce to pitch class 1. Arithmetic with intervals is componentwise. */
module Notes {
  import opened Common
  import opened Intervals

  datatype Note = Note(fifth: int, octave: int)

  datatype AccidentalPreference = Natural | Sharp | Flat

  /** `n(k)`: the note moved by `k` octaves. */
  function AtOctave(n: Note, k: int): (r: Note)
    ensures Midi(r) == Midi(n) + 12 * k
    ensures r.fifth == n.fifth
  {
    Plus(n, Interval(0, k))
  }

  function Plus(n: Note, iv: Interval): Note {
    Note(n.fifth + iv.fifths, n.octave + iv.octaves)
  }

  function Minus(n: Note, iv: Interval): Note {
    Note(n.fifth - iv.fifths, n.octave - iv.octaves)
  }

  /** The interval from `b` up to `a`. */
  function Diff(a: Note, b: Note): Interval {
    Interval(a.fifth - b.fifth, a.octave - b.octave)
  }

  /** Note arithmetic is componentwise, and adding then removing an interval,
      or adding the difference of two notes, returns where it started. */
  lemma {:induction false} ArithmeticLaws(n: Note, m: Note, iv: Interval)
    ensures Minus(Plus(n, iv), iv) == n
    ensures Plus(m, Diff(n, m)) == n
    ensures Minus(n, iv) == Plus(n, Neg(iv))
    ensures Diff(Plus(n, iv), n) == iv
  {
  }

  /** Absolute pitch in the MIDI 1.0 note-number convention (C4 = 60). */
  function Midi(n: Note): int {
    7 * n.fifth + 12 * n.octave + 12
  }

  /** Pitch class: seven semitones per fifth, folded into one octave. */
  function Pitch(n: Note): (r: int)
    ensures 0 <= r < 12
    ensures r == (7 * n.fifth) % 12
  {
    ((7 * n.fifth) % 12 + 12) % 12
  }

  predicate IsEnharmonic(a: Note, b: Note) {
    Pitch(a) == Pitch(b)
  }

  /** The pitch class is the MIDI number folded into one octave. */
  lemma {:induction false} PitchIsMidiModOctave(n: Note)
    ensures Pitch(n) == Midi(n) % 12
    ensures (Midi(n) - Pitch(n)) % 12 == 0
  {
    var q := (7 * n.fifth) / 12;
    assert 7 * n.fifth == 12 * q + Pitch(n);
    assert Midi(n) == 12 * (q + n.octave + 1) + Pitch(n);
    ModUnique(Midi(n), q + n.octave + 1, Pitch(n));
    ModUnique(Midi(n) - Pitch(n), q + n.octave + 1, 0);
  }

  /** Two notes at the same MIDI number share a pitch class. */
  lemma {:induction false} SameMidiSamePitch(a: Note, b: Note)
    requires Midi(a) == Midi(b)
    ensures Pitch(a) == Pitch(b)
  {
    PitchIsMidiModOctave(a);
    PitchIsMidiModOctave(b);
  }

  /** Adding an interval moves the pitch class by the interval's semitones. */
  lemma {:induction false} PitchPlus(n: Note, iv: Interval)
    ensures Pitch(Plus(n, iv)) == (Pitch(n) + Semitones(iv)) % 12
  {
    ModAdd(7 * n.fifth, 7 * iv.fifths);
    assert 7 * (n.fifth + iv.fifths) == 7 * n.fifth + 7 * iv.fifths;
  }

  /** Adding an interval moves the MIDI number by the interval's exact size. */
  lemma {:induction false} MidiPlus(n: Note, iv: Interval)
    ensures Midi(Plus(n, iv)) == Midi(n) + 7 * iv.fifths + 12 * iv.octaves
  {
  }

  function Offset(pref: AccidentalPreference): int {
    match pref
    case Sharp => 1
    case Flat => 6
    case Natural => 5
  }

  /** Canonical respelling: the fifth is moved by whole multiples of twelve
      into a window of twelve consecutive fifths chosen by the preference,
      and the octave compensates so that the sounding pitch is unchanged. */
  function Simplify(n: Note, pref: AccidentalPreference): (r: Note)
    ensures Midi(r) == Midi(n)
    ensures Pitch(r) == Pitch(n)
    ensures -Offset(pref) <= r.fifth < 12 - Offset(pref)
  {
    var shifted := n.fifth + Offset(pref);
    var adjust := shifted / 12;
    var r := Note(n.fifth - adjust * 12, n.octave + adjust * 7);
    assert Pitch(r) == Pitch(n) by { SameMidiSamePitch(r, n); }
    r
  }

  /** Spelling normalisation is a choice of representative: enharmonic notes
      at the same MIDI number have one spelling, and simplifying twice changes
      nothing. */
  lemma {:induction false} SimplifyCanonical(a: Note, b: Note, pref: AccidentalPreference)
    requires Midi(a) == Midi(b)
    ensures Simplify(a, pref) == Simplify(b, pref)
    ensures Simplify(Simplify(a, pref), pref) == Simplify(a, pref)
  {
    var ra, rb := Simplify(a, pref), Simplify(b, pref);
    SameMidiSamePitch(a, b);
    FifthFromPitchInWindow(ra, rb, Offset(pref));
    var rr := Simplify(ra, pref);
    FifthFromPitchInWindow(rr, ra, Offset(pref));
  }

  /** Within a window of twelve consecutive fifths the pitch class determines
      the fifth, and MIDI then determines the octave. */
  lemma {:induction false} FifthFromPitchInWindow(x: Note, y: Note, off: int)
    requires -off <= x.fifth < 12 - off && -off <= y.fifth < 12 - off
    requires Midi(x) == Midi(y)
    ensures x == y
  {
    SameMidiSamePitch(x, y);
    var d := x.fifth - y.fifth;
    assert -12 < d < 12;
    ModAdd(7 * y.fifth, 7 * d);
    assert (7 * d) % 12 == 0 by {
      assert Pitch(x) == (Pitch(y) + (7 * d) % 12) % 12;
    }
    SevenTimesMultipleOfTwelve(d);
  }

  lemma {:induction false} SevenTimesMultipleOfTwelve(d: int)
    requires -12 < d < 12 && (7 * d) % 12 == 0
    ensures d == 0
  {
  }

  /** Notes are ordered lexicographically on (fifth, octave). */
  predicate Less(a: Note, b: Note) {
    a.fifth < b.fifth || (a.fifth == b.fifth && a.octave < b.octave)
  }

  lemma {:induction false} LessIsStrictTotalOrder(a: Note, b: Note, c: Note)
    ensures !Less(a, a)
    ensures Less(a, b) && Less(b, c) ==> Less(a, c)
    ensures a == b || Less(a, b) || Less(b, a)
    ensures Less(a, b) ==> !Less(b, a)
  {
  }

  const Letters := "FCGDAEB"

  /** Index of the natural letter of a spelling in F C G D A E B. */
  function LetterIndex(n: Note): (r: int)
    ensures 0 <= r < 7
  {
    (n.fifth + 1) % 7
  }

  /** Number of sharps (positive) or flats (negative) of a spelling. */
  function Accidentals(n: Note): int {
    (n.fifth + 1) / 7
  }

  /** Letter name with sharps or flats and no octave ("F#", "Bb"). */
  function PitchName(n: Note): (r: string)
    ensures |r| >= 1 && r[0] == Letters[LetterIndex(n)]
    ensures |r| == 1 + (if Accidentals(n) >= 0 then Accidentals(n) else -Accidentals(n))
    ensures forall i | 1 <= i < |r| :: r[i] == (if Accidentals(n) > 0 then '#' else 'b')
  {
    var acc := Accidentals(n);
    [Letters[LetterIndex(n)]] + (if acc > 0 then Repeat('#', acc) else if acc < 0 then Repeat('b', -acc) else "")
  }

  /** A pitch name spells exactly one fifth: equal names mean equal fifths. */
  lemma {:induction false} PitchNameInjective(a: Note, b: Note)
    requires PitchName(a) == PitchName(b)
    ensures a.fifth == b.fifth
  {
    var ra, rb := PitchName(a), PitchName(b);
    assert Letters[LetterIndex(a)] == Letters[LetterIndex(b)];
    LettersDistinct(LetterIndex(a), LetterIndex(b));
    assert |ra| >= 2 ==> ra[1] == rb[1];
    assert a.fifth + 1 == 7 * Accidentals(a) + LetterIndex(a);
    assert b.fifth + 1 == 7 * Accidentals(b) + LetterIndex(b);
  }

  lemma {:induction false} LettersDistinct(i: int, j: int)
    requires 0 <= i < 7 && 0 <= j < 7 && Letters[i] == Letters[j]
    ensures i == j
  {
  }

  /** Octave number shown in a note's name: C4 is middle C (MIDI 60). */
  function DisplayOctave(n: Note): int {
    (Midi(n) - Pitch(n)) / 12 - 1
  }

  /** Full name, pitch name then octave ("F#4", "Bb3"). */
  function Str(n: Note): string
  {
    PitchName(n) + IntToString(DisplayOctave(n))
  }

  /** The displayed octave counts whole octaves of the MIDI number: MIDI is
      recovered from the displayed octave and the pitch class. */
  lemma {:induction false} DisplayOctaveMeaning(n: Note)
    ensures Midi(n) == 12 * (DisplayOctave(n) + 1) + Pitch(n)
  {
    PitchIsMidiModOctave(n);
    var k := (Midi(n) - Pitch(n)) / 12;
    assert (Midi(n) - Pitch(n)) == 12 * k by {
      ModUnique(Midi(n) - Pitch(n), k, 0);
    }
  }

  // Named notes, in octave 0 of the lattice; `C(4)` is `AtOctave(C, 4)`.
  const C := Note(0, 0)
  const G := Note(1, 0)
  const D := Note(2, -1)
  const A := Note(3, -1)
  const E := Note(4, -2)
  const B := Note(5, -2)
  const Fs := Note(6, -3)
  const Cs := Note(7, -4)
  const Gs := Note(8, -4)
  const Ds := Note(9, -5)
  const As := Note(10, -5)
  const F := Note(-1, 1)
  const Bb := Note(-2, 2)
  const Eb := Note(-3, 2)
  const Ab := Note(-4, 3)
  const Db := Note(-5, 3)
  const Gb := Note(-6, 4)

  /** `note{}`: the value-initialised note, C in octave 0 of the lattice. */
  const DefaultNote := C

  lemma NamedNoteExamples()
    ensures Midi(AtOctave(C, 4)) == 60 && Midi(AtOctave(A, 4)) == 69
    ensures Less(AtOctave(C, 4), AtOctave(C, 5))
    ensures IsEnharmonic(Cs, Db) && Cs != Db
  {
  }

  lemma SpellingExamples()
    ensures PitchName(Fs) == "F#" && PitchName(Bb) == "Bb" && PitchName(C) == "C"
  {
    assert Repeat('#', 1) == "#";
    assert Repeat('b', 1) == "b";
  }

  lemma FullNameExamples()
    ensures Str(AtOctave(Fs, 4)) == "F#4" && Str(AtOctave(Bb, 3)) == "Bb3"
  {
    SharpFullName();
    FlatFullName();
  }

  lemma SharpFullName()
    ensures Str(AtOctave(Fs, 4)) == "F#4"
  {
    SpellingExamples();
    var fs4 := AtOctave(Fs, 4);
    assert PitchName(fs4) == "F#";
    assert Midi(fs4) == 66 && Pitch(fs4) == 6;
    assert IntToString(4) == "4";
  }

  lemma FlatFullName()
    ensures Str(AtOctave(Bb, 3)) == "Bb3"
  {
    SpellingExamples();
    var bb3 := AtOctave(Bb, 3);
    assert PitchName(bb3) == "Bb";
    assert Midi(bb3) == 58 && Pitch(bb3) == 10;
    assert IntToString(3) == "3";
  }

  lemma SimplifyExample()
    ensures Simplify(AtOctave(Cs, 4), Natural) == AtOctave(Db, 4)
  {
  }
}
