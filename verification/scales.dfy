/** Scales: a pattern of intervals above a tonic, its modes and the chords
    stacked in thirds on its degrees; and a scale placed on a root note, with
    membership by exact spelling, degree lookup and chords built from the
    scale's own notes. */
module Scales {
  import opened Common
  import opened Intervals
  import opened Notes
  import opened Degrees
  import opened ChordPatterns

  datatype ScalePattern = ScalePattern(intervals: seq<Interval>)

  /** `scale_instance`: the root the scale was built on and its notes. */
  datatype ScaleInstance = ScaleInstance(root: Note, notes: seq<Note>)

  /** Diatonic steps spanned by an interval: its number less one
      (`fifths * 4 + octaves * 7`). */
  function Steps(iv: Interval): int {
    4 * iv.fifths + 7 * iv.octaves
  }

  /** Size of an interval in semitones, not folded into an octave. */
  function Span(iv: Interval): int {
    7 * iv.fifths + 12 * iv.octaves
  }

  /** Every interval lies within the first octave by its number (unison to
      seventh), as in all the named patterns. */
  predicate WithinOctave(p: seq<Interval>) {
    forall j | 0 <= j < |p| :: 0 <= Steps(p[j]) < 7
  }

  /** The pattern climbs strictly within one octave, by semitones. */
  predicate Ascending(p: seq<Interval>) {
    (forall j | 0 <= j < |p| :: 0 <= Span(p[j]) < 12) &&
    (forall j, k | 0 <= j < k < |p| :: Span(p[j]) < Span(p[k]))
  }

  // ----- modes -----

  /** A step up a scale: the whole octaves it passes and the 0-based degree
      it lands on. */
  datatype ScaleStep = ScaleStep(octave: nat, index: nat)

  /** Step `k` up a scale of `n` degrees, split into the whole octaves it
      passes and the degree it lands on (`k / n` and `k % n`). */
  function Around(k: nat, n: nat): (r: ScaleStep)
    requires n > 0
    ensures r.index < n
    decreases k
  {
    if k < n then ScaleStep(0, k) else var t := Around(k - n, n); ScaleStep(t.octave + 1, t.index)
  }

  lemma {:induction false} AroundIsDivMod(k: nat, n: nat)
    requires n > 0
    ensures Around(k, n) == ScaleStep(k / n, k % n)
    decreases k
  {
    if k < n {
      DivModUnique(k, n, 0, k);
    } else {
      AroundIsDivMod(k - n, n);
      var t := Around(k - n, n);
      assert k - n == t.octave * n + t.index;
      assert k == (t.octave + 1) * n + t.index;
      DivModUnique(k, n, t.octave + 1, t.index);
    }
  }

  /** Below two octaves at most one octave is passed. */
  lemma {:induction false} AroundBelowTwice(k: nat, n: nat)
    requires 0 < n && k < 2 * n
    ensures Around(k, n) == if k < n then ScaleStep(0, k) else ScaleStep(1, k - n)
  {
    if k >= n {
      assert Around(k - n, n) == ScaleStep(0, k - n);
    }
  }

  /** Two steps further on land two degrees higher, or wrap into the next
      octave. */
  lemma {:induction false} AroundPlusTwo(k: nat, n: nat)
    requires n >= 2
    ensures Around(k + 2, n) ==
              var t := Around(k, n);
              if t.index + 2 < n then ScaleStep(t.octave, t.index + 2) else ScaleStep(t.octave + 1, t.index + 2 - n)
    decreases k
  {
    if k < n {
      AroundBelowTwice(k + 2, n);
    } else {
      AroundPlusTwo(k - n, n);
    }
  }

  /** `k / n` and `k % n`, as the source computes a step around a scale of
      `n` degrees. */
  method Wrap(k: nat, n: nat) returns (octaves: nat, index: nat)
    requires n > 0
    ensures ScaleStep(octaves, index) == Around(k, n)
  {
    octaves, index := k / n, k % n;
    AroundIsDivMod(k, n);
  }

  /** Degree `i` of mode `m`: the pattern read from degree `m` around the
      scale, measured from it, and lifted an octave when it would descend. */
  function ModeStep(p: seq<Interval>, m: nat, i: nat): Interval
    requires m < |p| && i < |p|
  {
    var a, b := p[Around(i + m, |p|).index], p[m];
    var fifths, octaves := a.fifths - b.fifths, a.octaves - b.octaves;
    if 4 * fifths + 7 * octaves < 0 then Interval(fifths, octaves + 1) else Interval(fifths, octaves)
  }

  /** `scale_pattern::mode<M>` as a value. */
  function ModeOf(p: ScalePattern, m: nat): (r: ScalePattern)
    requires m < |p.intervals|
    ensures |r.intervals| == |p.intervals|
  {
    ScalePattern(seq(|p.intervals|, i requires 0 <= i < |p.intervals| => ModeStep(p.intervals, m, i)))
  }

  /** `scale_pattern::mode<M>`: the result array filled degree by degree. */
  method Mode(p: ScalePattern, m: nat) returns (r: ScalePattern)
    requires m < |p.intervals|
    ensures r == ModeOf(p, m)
  {
    var n := |p.intervals|;
    var result := new Interval[n];
    var offset := p.intervals[m];
    for i := 0 to n
      invariant result[..i] == ModeOf(p, m).intervals[..i]
    {
      var _, idx := Wrap(i + m, n);
      var iv := Sub(p.intervals[idx], offset);
      if Steps(iv) < 0 {
        iv := Add(iv, P8);
      }
      assert iv == ModeOf(p, m).intervals[i];
      result[i] := iv;
      assert ModeOf(p, m).intervals[..i + 1] == ModeOf(p, m).intervals[..i] + [iv];
    }
    assert result[..] == result[..n];
    r := ScalePattern(result[..]);
  }

  /** Degree `i` of mode `m`, above degree `m` of the pattern, spells degree
      `m + i` of the pattern (around the scale); within the octave it stays
      within the octave. */
  lemma {:induction false} ModeAt(p: ScalePattern, m: nat, i: nat)
    requires m < |p.intervals| && i < |p.intervals|
    ensures Add(p.intervals[m], ModeOf(p, m).intervals[i]).fifths == p.intervals[Around(i + m, |p.intervals|).index].fifths
    ensures Intervals.IsEnharmonic(Add(p.intervals[m], ModeOf(p, m).intervals[i]), p.intervals[Around(i + m, |p.intervals|).index])
    ensures WithinOctave(p.intervals) ==> 0 <= Steps(ModeOf(p, m).intervals[i]) < 7
  {
    var n := |p.intervals|;
    var iv := Sub(p.intervals[Around(i + m, n).index], p.intervals[m]);
    assert ModeOf(p, m).intervals[i] == (if Steps(iv) < 0 then Add(iv, P8) else iv);
  }

  /** A mode starts on a unison, and a pattern within the octave gives modes
      within the octave. */
  lemma {:induction false} ModeFacts(p: ScalePattern, m: nat)
    requires m < |p.intervals|
    ensures ModeOf(p, m).intervals[0] == P1
    ensures WithinOctave(p.intervals) ==> WithinOctave(ModeOf(p, m).intervals)
  {
    var n := |p.intervals|;
    ModeStartsOnUnison(p, m);
    if WithinOctave(p.intervals) {
      forall i | 0 <= i < n
        ensures 0 <= Steps(ModeOf(p, m).intervals[i]) < 7
      {
        ModeAt(p, m, i);
      }
    }
  }

  /** Every mode starts on a unison. */
  lemma {:induction false} ModeStartsOnUnison(p: ScalePattern, m: nat)
    requires m < |p.intervals|
    ensures ModeOf(p, m).intervals[0] == P1
  {
    assert Around(m, |p.intervals|) == ScaleStep(0, m);
    assert ModeOf(p, m).intervals[0] == ModeStep(p.intervals, m, 0);
  }

  /** Two intervals with the same fifths and both within the octave by
      number are equal. */
  lemma {:induction false} SameFifthsWithinOctave(a: Interval, b: Interval)
    requires a.fifths == b.fifths && 0 <= Steps(a) < 7 && 0 <= Steps(b) < 7
    ensures a == b
  {
  }

  /** Taking mode `b` of mode `a` is taking mode `a + b`: modes compose by
      adding their starting degrees, around the scale. */
  lemma {:induction false} ModeCompose(p: ScalePattern, a: nat, b: nat)
    requires a < |p.intervals| && b < |p.intervals| && WithinOctave(p.intervals)
    ensures ModeOf(ModeOf(p, a), b) == ModeOf(p, Around(a + b, |p.intervals|).index)
  {
    var x := ModeOf(ModeOf(p, a), b).intervals;
    var y := ModeOf(p, Around(a + b, |p.intervals|).index).intervals;
    ComposeAll(p, a, b);
    assert x == y;
  }

  lemma {:induction false} ComposeAll(p: ScalePattern, a: nat, b: nat)
    requires a < |p.intervals| && b < |p.intervals| && WithinOctave(p.intervals)
    ensures forall i | 0 <= i < |p.intervals| ::
              ModeOf(ModeOf(p, a), b).intervals[i] == ModeOf(p, Around(a + b, |p.intervals|).index).intervals[i]
  {
    forall i | 0 <= i < |p.intervals|
      ensures ModeOf(ModeOf(p, a), b).intervals[i] == ModeOf(p, Around(a + b, |p.intervals|).index).intervals[i]
    {
      ModeFacts(p, a);
      ComposeAt(p, a, b, i);
    }
  }

  lemma {:induction false} ComposeAt(p: ScalePattern, a: nat, b: nat, i: nat)
    requires a < |p.intervals| && b < |p.intervals| && i < |p.intervals| && WithinOctave(p.intervals)
    requires WithinOctave(ModeOf(p, a).intervals)
    ensures ModeOf(ModeOf(p, a), b).intervals[i] == ModeOf(p, Around(a + b, |p.intervals|).index).intervals[i]
  {
    var n := |p.intervals|;
    var ma := ModeOf(p, a);
    var c := Around(a + b, n).index;
    var j := Around(i + b, n).index;
    AroundBelowTwice(i + b, n);
    AroundBelowTwice(a + b, n);
    AroundBelowTwice(j + a, n);
    AroundBelowTwice(i + c, n);
    AroundBelowTwice(b + a, n);
    ModeAt(ma, b, i);
    ModeAt(p, a, j);
    ModeAt(p, a, b);
    ModeAt(p, c, i);
    assert Around(j + a, n).index == Around(i + c, n).index && Around(b + a, n).index == c;
    SameFifthsWithinOctave(ModeOf(ma, b).intervals[i], ModeOf(p, c).intervals[i]);
  }

  // ----- chords stacked on a pattern -----

  /** Tone `i` of the chord on 0-based degree `d` as the source computes it:
      scale index `d + 2i` measured from degree `d`, raised by the octaves the
      index passed and by one more when the difference descends. */
  function PatternToneAsWritten(p: seq<Interval>, d: nat, i: nat): Interval
    requires d < |p|
  {
    var t := Around(d + 2 * i, |p|);
    var a, b := p[t.index], p[d];
    var fifths, octaves := a.fifths - b.fifths, a.octaves - b.octaves;
    Interval(fifths, octaves + t.octave + (if 4 * fifths + 7 * octaves < 0 then 1 else 0))
  }

  /** Tone `i` of the chord on degree `d`, raised only by the octaves the
      index passed: the stacked third lands in close position. */
  function PatternTone(p: seq<Interval>, d: nat, i: nat): Interval
    requires d < |p|
  {
    var t := Around(d + 2 * i, |p|);
    var a, b := p[t.index], p[d];
    Interval(a.fifths - b.fifths, a.octaves - b.octaves + t.octave)
  }

  /** `scale_pattern::chord_on<Deg, Tones>` as written. */
  function ChordOnPatternAsWritten(p: ScalePattern, deg: Degree, tones: nat): (r: ChordPattern)
    requires 1 <= deg.num <= |p.intervals|
    ensures |r.intervals| == tones
  {
    ChordPattern(seq(tones, i requires 0 <= i < tones => PatternToneAsWritten(p.intervals, deg.num - 1, i)))
  }

  /** `scale_pattern::chord_on<Deg, Tones>`, with the octave counted once. */
  function ChordOnPattern(p: ScalePattern, deg: Degree, tones: nat): (r: ChordPattern)
    requires 1 <= deg.num <= |p.intervals|
    ensures |r.intervals| == tones
  {
    ChordPattern(seq(tones, i requires 0 <= i < tones => PatternTone(p.intervals, deg.num - 1, i)))
  }

  /** `scale_pattern::chord_on<Deg, Tones>`: the chord's tone array filled
      one stacked third at a time, with the source's extra octave. */
  method PatternChordOn(p: ScalePattern, deg: Degree, tones: nat) returns (r: ChordPattern)
    requires 1 <= deg.num <= |p.intervals|
    ensures r == ChordOnPatternAsWritten(p, deg, tones)
  {
    var n := |p.intervals|;
    var d := deg.num - 1;
    var result := new Interval[tones];
    var _, rootIndex := Wrap(d, n);
    var root := p.intervals[rootIndex];
    for i := 0 to tones
      invariant forall k | 0 <= k < i :: result[k] == PatternToneAsWritten(p.intervals, d, k)
    {
      var octaveBump, idx := Wrap(d + i * 2, n);
      var iv := Sub(p.intervals[idx], root);
      ghost var raw := iv;
      if Steps(iv) < 0 {
        octaveBump := octaveBump + 1;
      }
      iv := Add(iv, Interval(0, octaveBump));
      assert iv == PatternToneAsWritten(p.intervals, d, i) by {
        PatternToneAsWrittenAt(p.intervals, d, i, octaveBump - (if Steps(raw) < 0 then 1 else 0), idx);
      }
      result[i] := iv;
    }
    r := ChordPattern(result[..]);
  }

  lemma {:induction false} PatternToneAsWrittenAt(p: seq<Interval>, d: nat, i: nat, q: nat, idx: nat)
    requires d < |p| && Around(d + 2 * i, |p|) == ScaleStep(q, idx)
    ensures idx < |p| &&
            var iv := Sub(p[idx], p[d]);
            PatternToneAsWritten(p, d, i) == Add(iv, Interval(0, q + (if Steps(iv) < 0 then 1 else 0)))
  {
  }

  lemma {:induction false} PatternToneAt(p: seq<Interval>, d: nat, i: nat, q: nat, idx: nat)
    requires d < |p| && Around(d + 2 * i, |p|) == ScaleStep(q, idx)
    ensures idx < |p| && PatternTone(p, d, i) == Add(Sub(p[idx], p[d]), Interval(0, q))
  {
  }

  /** Tone 0 of a chord on a pattern is the unison, and each tone, above the
      chord's degree, spells the scale degree two steps per tone further on,
      raised by the octaves passed. */
  lemma {:induction false} PatternChordFacts(p: ScalePattern, deg: Degree, tones: nat)
    requires 1 <= deg.num <= |p.intervals|
    ensures tones >= 1 ==> ChordOnPattern(p, deg, tones).intervals[0] == P1
    ensures forall i | 0 <= i < tones ::
              var t := Around(deg.num - 1 + 2 * i, |p.intervals|);
              Add(p.intervals[deg.num - 1], ChordOnPattern(p, deg, tones).intervals[i]) ==
                Add(p.intervals[t.index], Interval(0, t.octave))
  {
    var d := deg.num - 1;
    var c := ChordOnPattern(p, deg, tones).intervals;
    forall i | 0 <= i < tones
      ensures var t := Around(d + 2 * i, |p.intervals|);
              Add(p.intervals[d], c[i]) == Add(p.intervals[t.index], Interval(0, t.octave))
      ensures i == 0 ==> c[i] == P1
    {
      assert c[i] == PatternTone(p.intervals, d, i);
    }
  }

  // ----- a scale placed on a root -----

  /** `root + pattern` as a value. */
  function ScaleOn(root: Note, p: ScalePattern): (r: ScaleInstance)
    ensures r.root == root && |r.notes| == |p.intervals|
  {
    ScaleInstance(root, seq(|p.intervals|, i requires 0 <= i < |p.intervals| => Plus(root, p.intervals[i])))
  }

  /** `root + pattern`: each note is the root plus its interval. */
  method PlaceScale(root: Note, p: ScalePattern) returns (s: ScaleInstance)
    ensures s == ScaleOn(root, p)
  {
    var n := |p.intervals|;
    var notes := new Note[n];
    for i := 0 to n
      invariant forall k | 0 <= k < i :: notes[k] == Plus(root, p.intervals[k])
    {
      notes[i] := Plus(root, p.intervals[i]);
    }
    s := ScaleInstance(root, notes[..]);
  }

  /** The pattern is recovered from a placed scale: each note less the root
      is its interval, and the scale sounds each interval above the root. */
  lemma {:induction false} ScaleOnRecoversPattern(root: Note, p: ScalePattern)
    ensures forall i | 0 <= i < |p.intervals| ::
              Diff(ScaleOn(root, p).notes[i], root) == p.intervals[i] &&
              Midi(ScaleOn(root, p).notes[i]) == Midi(root) + Span(p.intervals[i])
  {
  }

  // ----- membership and degrees -----

  /** `contains`: some scale note has the same pitch class and the same
      fifth, that is the same spelling. */
  predicate Contains(s: ScaleInstance, target: Note) {
    exists i | 0 <= i < |s.notes| :: Pitch(s.notes[i]) == Pitch(target) && s.notes[i].fifth == target.fifth
  }

  /** `contains_enharmonic`: some scale note has the target's pitch class. */
  predicate ContainsEnharmonic(s: ScaleInstance, target: Note) {
    exists i | 0 <= i < |s.notes| :: Notes.IsEnharmonic(s.notes[i], target)
  }

  /** Membership is by spelling alone (the pitch-class test adds nothing),
      and implies enharmonic membership. */
  lemma {:induction false} ContainsIsSpelling(s: ScaleInstance, target: Note)
    ensures Contains(s, target) <==> exists i | 0 <= i < |s.notes| :: s.notes[i].fifth == target.fifth
    ensures Contains(s, target) ==> ContainsEnharmonic(s, target)
  {
    if exists i | 0 <= i < |s.notes| :: s.notes[i].fifth == target.fifth {
      var i :| 0 <= i < |s.notes| && s.notes[i].fifth == target.fifth;
      assert Pitch(s.notes[i]) == Pitch(target);
    }
  }

  /** The first position from `i` on holding the target's spelling. */
  function FirstSpelled(notes: seq<Note>, target: Note, i: nat): (r: Option<nat>)
    requires i <= |notes|
    ensures r.Some? ==> i <= r.value < |notes| &&
                        Pitch(notes[r.value]) == Pitch(target) && notes[r.value].fifth == target.fifth &&
                        forall j | i <= j < r.value :: !(Pitch(notes[j]) == Pitch(target) && notes[j].fifth == target.fifth)
    ensures r.None? <==> forall j | i <= j < |notes| :: !(Pitch(notes[j]) == Pitch(target) && notes[j].fifth == target.fifth)
    decreases |notes| - i
  {
    if i == |notes| then None
    else if Pitch(notes[i]) == Pitch(target) && notes[i].fifth == target.fifth then Some(i)
    else FirstSpelled(notes, target, i + 1)
  }

  /** `degree_of` as a value. */
  function DegreeOfSpec(s: ScaleInstance, target: Note): Degree {
    match FirstSpelled(s.notes, target, 0)
    case Some(i) => Plain(i + 1)
    case None => NoDegree
  }

  /** `degree_of`: the 1-based position of the first note spelled like the
      target, or the unset degree. */
  method DegreeOf(s: ScaleInstance, target: Note) returns (d: Degree)
    ensures d == DegreeOfSpec(s, target)
  {
    for i := 0 to |s.notes|
      invariant FirstSpelled(s.notes, target, 0) == FirstSpelled(s.notes, target, i)
    {
      if Pitch(s.notes[i]) == Pitch(target) && s.notes[i].fifth == target.fifth {
        return Degree(i + 1, 0);
      }
    }
    return NoDegree;
  }

  /** A degree is found exactly when the scale contains the note; it is then
      unaltered and names the first note with that spelling. */
  lemma {:induction false} DegreeOfFacts(s: ScaleInstance, target: Note)
    ensures IsSet(DegreeOfSpec(s, target)) <==> Contains(s, target)
    ensures !IsSet(DegreeOfSpec(s, target)) ==> DegreeOfSpec(s, target) == NoDegree
    ensures IsSet(DegreeOfSpec(s, target)) ==>
              var k := DegreeOfSpec(s, target).num - 1;
              DegreeOfSpec(s, target).alter == 0 && k < |s.notes| && s.notes[k].fifth == target.fifth &&
              forall j | 0 <= j < k :: s.notes[j].fifth != target.fifth
  {
    var r := FirstSpelled(s.notes, target, 0);
    if r.Some? {
      forall j | 0 <= j < r.value
        ensures s.notes[j].fifth != target.fifth
      {
        assert s.notes[j].fifth == target.fifth ==> Pitch(s.notes[j]) == Pitch(target);
      }
    }
  }

  /** `is_diatonic(note)`. */
  predicate IsDiatonicNote(s: ScaleInstance, n: Note) {
    Contains(s, n)
  }

  /** `is_diatonic(chord)`: every tone is spelled as in the scale. */
  predicate IsDiatonicChord(s: ScaleInstance, c: ChordInstance) {
    forall k | 0 <= k < |c.notes| :: Contains(s, c.notes[k])
  }

  /** `simplify` as a value: root and notes respelled. */
  function SimplifyScale(s: ScaleInstance, pref: AccidentalPreference): (r: ScaleInstance)
    ensures |r.notes| == |s.notes|
  {
    ScaleInstance(Simplify(s.root, pref), seq(|s.notes|, i requires 0 <= i < |s.notes| => Simplify(s.notes[i], pref)))
  }

  /** `simplify`: the result array filled note by note. */
  method SimplifyNotes(s: ScaleInstance, pref: AccidentalPreference) returns (r: ScaleInstance)
    ensures r == SimplifyScale(s, pref)
  {
    var notes := new Note[|s.notes|];
    for i := 0 to |s.notes|
      invariant forall k | 0 <= k < i :: notes[k] == Simplify(s.notes[k], pref)
    {
      notes[i] := Simplify(s.notes[i], pref);
    }
    r := ScaleInstance(Simplify(s.root, pref), notes[..]);
  }

  /** Respelling a scale keeps every sounding pitch, and respelling again
      changes nothing. */
  lemma {:induction false} SimplifyScaleFacts(s: ScaleInstance, pref: AccidentalPreference)
    ensures Midi(SimplifyScale(s, pref).root) == Midi(s.root)
    ensures forall i | 0 <= i < |s.notes| ::
              Midi(SimplifyScale(s, pref).notes[i]) == Midi(s.notes[i]) &&
              Pitch(SimplifyScale(s, pref).notes[i]) == Pitch(s.notes[i])
    ensures SimplifyScale(SimplifyScale(s, pref), pref) == SimplifyScale(s, pref)
  {
    var r := SimplifyScale(s, pref);
    SimplifyCanonical(s.root, s.root, pref);
    forall i | 0 <= i < |s.notes|
      ensures Simplify(r.notes[i], pref) == r.notes[i]
    {
      SimplifyCanonical(s.notes[i], s.notes[i], pref);
    }
    assert SimplifyScale(r, pref).notes == r.notes;
  }

  // ----- chords built from a placed scale -----

  /** A note raised by whole octaves until its MIDI number reaches `floor`. */
  function RaisedTo(n: Note, floor: int): (r: Note)
    ensures r.fifth == n.fifth && Pitch(r) == Pitch(n)
    ensures Midi(r) >= floor
    ensures Midi(n) >= floor ==> r == n
    ensures Midi(n) < floor ==> Midi(r) < floor + 12
    decreases if Midi(n) < floor then floor - Midi(n) else 0
  {
    if Midi(n) < floor then RaisedTo(Plus(n, P8), floor) else n
  }

  /** Raising to a floor adds exactly the octaves needed and no more. */
  lemma {:induction false} RaisedToExact(n: Note, floor: int, q: nat)
    requires Midi(n) + 12 * q >= floor
    requires q == 0 || Midi(n) + 12 * (q - 1) < floor
    ensures RaisedTo(n, floor) == Plus(n, Interval(0, q))
    decreases q
  {
    if q > 0 {
      RaisedToExact(Plus(n, P8), floor, q - 1);
    }
  }

  /** The first `k` tones of `scale_instance::chord_on` on 0-based degree
      `d`: tone 0 is the degree's note raised to the root, each later tone the
      note two degrees further on raised above the tone before. */
  function ChordTones(s: ScaleInstance, d: nat, k: nat): (r: seq<Note>)
    requires d < |s.notes|
    ensures |r| == k
    decreases k
  {
    if k == 0 then []
    else
      var prev := ChordTones(s, d, k - 1);
      var n := s.notes[Around(d + 2 * (k - 1), |s.notes|).index];
      var floor := if k == 1 then Midi(s.root) else Midi(prev[k - 2]) + 1;
      prev + [RaisedTo(n, floor)]
  }

  /** Raises a note by octaves until its MIDI number reaches `floor`: both
      of the source's raising loops, since `midi <= previous` holds exactly
      when `midi < previous + 1`. */
  method Raise(n: Note, floor: int) returns (r: Note)
    ensures r == RaisedTo(n, floor)
  {
    r := n;
    while Midi(r) < floor
      invariant RaisedTo(r, floor) == RaisedTo(n, floor)
      decreases floor - Midi(r)
    {
      r := Plus(r, P8);
    }
  }

  /** `scale_instance::chord_on<Deg, Tones>`: the tones filled in order, the
      first raised to the root and each later one above the tone before. */
  method ChordOn(s: ScaleInstance, deg: Degree, tones: nat) returns (c: ChordInstance)
    requires 1 <= deg.num <= |s.notes|
    ensures c == ChordInstance(ChordTones(s, deg.num - 1, tones))
  {
    var d := deg.num - 1;
    var result := new Note[tones];
    for i := 0 to tones
      invariant result[..i] == ChordTones(s, d, i)
    {
      ghost var prev := result[..i];
      var last := if i > 0 then result[i - 1] else s.root;
      var n := NextTone(s, d, i, prev, last);
      result[i] := n;
      assert result[..i + 1] == prev + [n];
    }
    assert result[..tones] == result[..];
    c := ChordInstance(result[..]);
  }

  /** One pass of the outer loop of `chord_on`: the scale note two degrees
      further on, raised above the previous tone (the first tone is raised
      to the scale's root). */
  method NextTone(s: ScaleInstance, d: nat, i: nat, ghost prev: seq<Note>, last: Note) returns (n: Note)
    requires d < |s.notes| && prev == ChordTones(s, d, i)
    requires i > 0 ==> last == prev[i - 1]
    requires i == 0 ==> last == s.root
    ensures ChordTones(s, d, i + 1) == prev + [n]
  {
    var _, idx := Wrap(d + 2 * i, |s.notes|);
    var floor := if i > 0 then Midi(last) + 1 else Midi(s.root);
    n := Raise(s.notes[idx], floor);
    ChordTonesNext(s, d, i, s.notes[idx], n);
  }

  /** One more tone: the next scale note raised above the chord so far. */
  lemma {:induction false} ChordTonesNext(s: ScaleInstance, d: nat, i: nat, n0: Note, n: Note)
    requires d < |s.notes| && n0 == s.notes[Around(d + 2 * i, |s.notes|).index]
    requires n == RaisedTo(n0, if i == 0 then Midi(s.root) else Midi(ChordTones(s, d, i)[i - 1]) + 1)
    ensures ChordTones(s, d, i + 1) == ChordTones(s, d, i) + [n]
  {
  }

  lemma {:induction false} ChordTonesPrefix(s: ScaleInstance, d: nat, k: nat, j: nat)
    requires d < |s.notes| && j <= k
    ensures ChordTones(s, d, k)[..j] == ChordTones(s, d, j)
    decreases k
  {
    if j < k {
      ChordTonesPrefix(s, d, k - 1, j);
      assert ChordTones(s, d, k)[..k - 1] == ChordTones(s, d, k - 1);
    }
  }

  /** The chord on a scale uses the scale's spellings: each tone is the
      note two degrees per tone further on, moved by whole octaves. */
  lemma {:induction false} ChordTonesSpelling(s: ScaleInstance, d: nat, k: nat)
    requires d < |s.notes|
    ensures forall i | 0 <= i < k ::
              var n := s.notes[Around(d + 2 * i, |s.notes|).index];
              ChordTones(s, d, k)[i].fifth == n.fifth && Pitch(ChordTones(s, d, k)[i]) == Pitch(n)
    decreases k
  {
    if k > 0 {
      ChordTonesSpelling(s, d, k - 1);
      var r := ChordTones(s, d, k);
      var prev := ChordTones(s, d, k - 1);
      forall i | 0 <= i < k - 1
        ensures r[i] == prev[i]
      {
      }
    }
  }

  /** The chord on a scale starts at or above the root and climbs strictly. */
  lemma {:induction false} ChordTonesClimb(s: ScaleInstance, d: nat, k: nat)
    requires d < |s.notes|
    ensures k >= 1 ==> Midi(ChordTones(s, d, k)[0]) >= Midi(s.root)
    ensures forall i | 0 <= i < k - 1 :: Midi(ChordTones(s, d, k)[i]) < Midi(ChordTones(s, d, k)[i + 1])
    decreases k
  {
    if k > 0 {
      ChordTonesClimb(s, d, k - 1);
      var r := ChordTones(s, d, k);
      var prev := ChordTones(s, d, k - 1);
      forall i | 0 <= i < k - 1
        ensures r[i] == prev[i]
      {
      }
    }
  }

  /** A chord built on a scale is diatonic to it. */
  lemma {:induction false} ChordOnIsDiatonic(s: ScaleInstance, d: nat, k: nat)
    requires d < |s.notes|
    ensures IsDiatonicChord(s, ChordInstance(ChordTones(s, d, k)))
  {
    ChordTonesSpelling(s, d, k);
    var r := ChordTones(s, d, k);
    forall i | 0 <= i < k
      ensures Contains(s, r[i])
    {
      var j := Around(d + 2 * i, |s.notes|).index;
      assert Pitch(s.notes[j]) == Pitch(r[i]) && s.notes[j].fifth == r[i].fifth;
    }
  }

  // ----- the pattern chord and the placed chord agree -----

  /** Scale step `k` counted upwards without folding, in semitones above the
      root: the degree it lands on raised by the octaves passed. */
  function Position(p: seq<Interval>, k: nat): int
    requires |p| >= 1
  {
    var t := Around(k, |p|);
    Span(p[t.index]) + 12 * t.octave
  }

  /** On a pattern climbing within one octave, two steps up always climb, by
      at most an octave. */
  lemma {:induction false} PositionStep(p: seq<Interval>, k: nat)
    requires |p| >= 2 && Ascending(p)
    ensures Position(p, k) < Position(p, k + 2) <= Position(p, k) + 12
  {
    var n := |p|;
    AroundPlusTwo(k, n);
    var r := Around(k, n).index;
    if r + 2 >= n && n > 2 {
      assert Span(p[r + 2 - n]) < Span(p[r]);
    }
  }

  /** Scale step `k` as a note: the root plus the degree it lands on plus the
      octaves passed. */
  function StackedNote(root: Note, p: seq<Interval>, k: nat): (r: Note)
    requires |p| >= 1
    ensures Midi(r) == Midi(root) + Position(p, k)
  {
    var t := Around(k, |p|);
    var iv := p[t.index];
    Note(root.fifth + iv.fifths, root.octave + iv.octaves + t.octave)
  }

  /** For a pattern climbing within one octave, the chord that
      `scale_instance::chord_on` builds from the notes of `root + pattern` is
      the degree's note plus the close-position pattern chord, tone by tone. */
  lemma {:induction false} ChordOnMatchesPattern(root: Note, p: ScalePattern, d: nat, k: nat)
    requires |p.intervals| >= 2 && Ascending(p.intervals) && d < |p.intervals|
    ensures forall i | 0 <= i < k ::
              ChordTones(ScaleOn(root, p), d, k)[i] == Plus(ScaleOn(root, p).notes[d], PatternTone(p.intervals, d, i))
  {
    var s := ScaleOn(root, p);
    var ps := p.intervals;
    assert PlacedOn(s, root, ps);
    ChordTonesStacked(s, root, ps, d, k);
    forall i | 0 <= i < k
      ensures Plus(s.notes[d], PatternTone(ps, d, i)) == StackedNote(root, ps, d + 2 * i)
    {
    }
  }

  /** The scale's notes are the root plus each interval of the pattern. */
  predicate PlacedOn(s: ScaleInstance, root: Note, ps: seq<Interval>) {
    s.root == root && |s.notes| == |ps| &&
    forall j | 0 <= j < |ps| :: s.notes[j] == Plus(root, ps[j])
  }

  /** On a scale placed on a climbing pattern, each tone of the chord is the
      stacked note two steps above the one before. */
  lemma {:induction false} ChordTonesStacked(s: ScaleInstance, root: Note, ps: seq<Interval>, d: nat, k: nat)
    requires |ps| >= 2 && Ascending(ps) && d < |ps| && PlacedOn(s, root, ps)
    ensures forall i | 0 <= i < k :: ChordTones(s, d, k)[i] == StackedNote(root, ps, d + 2 * i)
  {
    forall i | 0 <= i < k
      ensures ChordTones(s, d, k)[i] == StackedNote(root, ps, d + 2 * i)
    {
      ChordTonesStable(s, d, k, i);
      ToneIsStacked(s, root, ps, d, i);
    }
  }

  /** Adding tones leaves the earlier ones in place. */
  lemma {:induction false} ChordTonesStable(s: ScaleInstance, d: nat, k: nat, i: nat)
    requires d < |s.notes| && i < k
    ensures ChordTones(s, d, k)[i] == ChordTones(s, d, i + 1)[i]
    decreases k
  {
    if i + 1 < k {
      ChordTonesStable(s, d, k - 1, i);
    }
  }

  /** Tone `i` of the chord on a placed scale is stacked note `d + 2i`. */
  lemma {:induction false} ToneIsStacked(s: ScaleInstance, root: Note, ps: seq<Interval>, d: nat, i: nat)
    requires |ps| >= 2 && Ascending(ps) && d < |ps| && PlacedOn(s, root, ps)
    ensures ChordTones(s, d, i + 1)[i] == StackedNote(root, ps, d + 2 * i)
    decreases i
  {
    if i > 0 {
      ToneIsStacked(s, root, ps, d, i - 1);
    }
    NewestTone(s, root, ps, d, i);
  }

  /** The induction step: tone `i` is stacked note `d + 2i` when the tone
      before it is the stacked note two steps lower. */
  lemma {:induction false} NewestTone(s: ScaleInstance, root: Note, ps: seq<Interval>, d: nat, i: nat)
    requires |ps| >= 2 && Ascending(ps) && d < |ps| && PlacedOn(s, root, ps)
    requires i > 0 ==> ChordTones(s, d, i)[i - 1] == StackedNote(root, ps, d + 2 * (i - 1))
    ensures ChordTones(s, d, i + 1)[i] == StackedNote(root, ps, d + 2 * i)
  {
    var idx := Around(d + 2 * i, |ps|).index;
    assert s.notes[idx] == Plus(root, ps[idx]);
    ChordTonesLast(s, d, i);
    StackedNext(root, ps, d, i);
  }

  /** The stacked note `d + 2i` is the scale note it lands on raised to the
      root (for `i = 0`) or above the stacked note two steps lower. */
  lemma {:induction false} StackedNext(root: Note, ps: seq<Interval>, d: nat, i: nat)
    requires |ps| >= 2 && Ascending(ps) && d < |ps|
    ensures RaisedTo(Plus(root, ps[Around(d + 2 * i, |ps|).index]),
                     if i == 0 then Midi(root) else Midi(StackedNote(root, ps, d + 2 * (i - 1))) + 1)
            == StackedNote(root, ps, d + 2 * i)
  {
    var floor := if i == 0 then Midi(root) else Midi(StackedNote(root, ps, d + 2 * (i - 1))) + 1;
    if i == 0 {
      assert Around(d, |ps|) == ScaleStep(0, d);
    } else {
      PositionStep(ps, d + 2 * (i - 1));
    }
    StackedIsRaised(root, ps, d + 2 * i, floor);
  }

  /** The last of `i + 1` chord tones is the scale note two degrees on,
      raised to the root or above the tone before. */
  lemma {:induction false} ChordTonesLast(s: ScaleInstance, d: nat, i: nat)
    requires d < |s.notes|
    ensures ChordTones(s, d, i + 1)[i] ==
            RaisedTo(s.notes[Around(d + 2 * i, |s.notes|).index],
                     if i == 0 then Midi(s.root) else Midi(ChordTones(s, d, i)[i - 1]) + 1)
  {
  }

  /** Raising the scale note that step `k` lands on to a floor less than an
      octave below its stacked position gives the stacked note. */
  lemma {:induction false} StackedIsRaised(root: Note, ps: seq<Interval>, k: nat, floor: int)
    requires |ps| >= 1 && Ascending(ps)
    requires floor <= Midi(root) + Position(ps, k) < floor + 12
    ensures RaisedTo(Plus(root, ps[Around(k, |ps|).index]), floor) == StackedNote(root, ps, k)
  {
    var t := Around(k, |ps|);
    RaisedToExact(Plus(root, ps[t.index]), floor, t.octave);
  }

  // ----- named patterns -----

  const Major := ScalePattern([P1, M2, M3, P4, P5, M6, M7])
  const HarmonicMinor := ScalePattern([P1, M2, m3, P4, P5, m6, M7])
  const MelodicMinor := ScalePattern([P1, M2, m3, P4, P5, M6, M7])

  // The modes the library names, each a rotation of a seven-note pattern.
  const Dorian := ModeOf(Major, 1)
  const Phrygian := ModeOf(Major, 2)
  const Lydian := ModeOf(Major, 3)
  const Mixolydian := ModeOf(Major, 4)
  const NaturalMinor := ModeOf(Major, 5)
  const Locrian := ModeOf(Major, 6)
  const PhrygianDominant := ModeOf(HarmonicMinor, 4)
  const LydianSharp2 := ModeOf(HarmonicMinor, 5)
  const LydianDominant := ModeOf(MelodicMinor, 3)
  const Altered := ModeOf(MelodicMinor, 6)
  const MajorPentatonic := ScalePattern([P1, M2, M3, P5, M6])
  const MinorPentatonic := ScalePattern([P1, m3, P4, P5, m7])
  const WholeTone := ScalePattern([P1, M2, M3, A4, A5, m7])
  const Blues := ScalePattern([P1, m3, P4, d5, P5, m7])
  const Chromatic := ScalePattern([P1, m2, M2, m3, M3, P4, d5, P5, m6, M6, m7, M7])
  const BebopDominant := ScalePattern([P1, M2, M3, P4, P5, M6, m7, M7])
  const BebopMajor := ScalePattern([P1, M2, M3, P4, P5, m6, M6, M7])

  /** Around seven degrees, the first fourteen steps pass at most one
      octave. */
  lemma AroundSeven()
    ensures forall k: nat | k < 14 :: Around(k, 7) == if k < 7 then ScaleStep(0, k) else ScaleStep(1, k - 7)
  {
    forall k: nat | k < 14
      ensures Around(k, 7) == if k < 7 then ScaleStep(0, k) else ScaleStep(1, k - 7)
    {
      AroundBelowTwice(k, 7);
    }
  }

  /** Dorian: the mode on the second degree of major: a minor third and a minor seventh with a major sixth. */
  lemma DorianIntervals()
    ensures Dorian.intervals == [P1, M2, m3, P4, P5, M6, m7]
  {
    DorianOf(Major);
  }

  lemma {:induction false} DorianOf(p: ScalePattern)
    requires p.intervals == [P1, M2, M3, P4, P5, M6, M7]
    ensures ModeOf(p, 1).intervals == [P1, M2, m3, P4, P5, M6, m7]
  {
    AroundSeven();
  }

  /** Phrygian: the mode on the third degree of major: a minor second. */
  lemma PhrygianIntervals()
    ensures Phrygian.intervals == [P1, m2, m3, P4, P5, m6, m7]
  {
    PhrygianOf(Major);
  }

  lemma {:induction false} PhrygianOf(p: ScalePattern)
    requires p.intervals == [P1, M2, M3, P4, P5, M6, M7]
    ensures ModeOf(p, 2).intervals == [P1, m2, m3, P4, P5, m6, m7]
  {
    AroundSeven();
  }

  /** Lydian: the mode on the fourth degree of major: an augmented fourth. */
  lemma LydianIntervals()
    ensures Lydian.intervals == [P1, M2, M3, A4, P5, M6, M7]
  {
    LydianOf(Major);
  }

  lemma {:induction false} LydianOf(p: ScalePattern)
    requires p.intervals == [P1, M2, M3, P4, P5, M6, M7]
    ensures ModeOf(p, 3).intervals == [P1, M2, M3, A4, P5, M6, M7]
  {
    AroundSeven();
  }

  /** Mixolydian: the mode on the fifth degree of major: major with a minor seventh. */
  lemma MixolydianIntervals()
    ensures Mixolydian.intervals == [P1, M2, M3, P4, P5, M6, m7]
  {
    MixolydianOf(Major);
  }

  lemma {:induction false} MixolydianOf(p: ScalePattern)
    requires p.intervals == [P1, M2, M3, P4, P5, M6, M7]
    ensures ModeOf(p, 4).intervals == [P1, M2, M3, P4, P5, M6, m7]
  {
    AroundSeven();
  }

  /** NaturalMinor: the mode on the sixth degree of major: the natural minor scale. */
  lemma NaturalMinorIntervals()
    ensures NaturalMinor.intervals == [P1, M2, m3, P4, P5, m6, m7]
  {
    NaturalMinorOf(Major);
  }

  lemma {:induction false} NaturalMinorOf(p: ScalePattern)
    requires p.intervals == [P1, M2, M3, P4, P5, M6, M7]
    ensures ModeOf(p, 5).intervals == [P1, M2, m3, P4, P5, m6, m7]
  {
    AroundSeven();
  }

  /** Locrian: the mode on the seventh degree of major: a diminished fifth. */
  lemma LocrianIntervals()
    ensures Locrian.intervals == [P1, m2, m3, P4, d5, m6, m7]
  {
    LocrianOf(Major);
  }

  lemma {:induction false} LocrianOf(p: ScalePattern)
    requires p.intervals == [P1, M2, M3, P4, P5, M6, M7]
    ensures ModeOf(p, 6).intervals == [P1, m2, m3, P4, d5, m6, m7]
  {
    AroundSeven();
  }

  /** PhrygianDominant: the mode on the fifth degree of harmonic minor: a minor second under a major third. */
  lemma PhrygianDominantIntervals()
    ensures PhrygianDominant.intervals == [P1, m2, M3, P4, P5, m6, m7]
  {
    PhrygianDominantOf(HarmonicMinor);
  }

  lemma {:induction false} PhrygianDominantOf(p: ScalePattern)
    requires p.intervals == [P1, M2, m3, P4, P5, m6, M7]
    ensures ModeOf(p, 4).intervals == [P1, m2, M3, P4, P5, m6, m7]
  {
    AroundSeven();
  }

  /** LydianSharp2: the mode on the sixth degree of harmonic minor: an augmented second and fourth. */
  lemma LydianSharp2Intervals()
    ensures LydianSharp2.intervals == [P1, A2, M3, A4, P5, M6, M7]
  {
    LydianSharp2Of(HarmonicMinor);
  }

  lemma {:induction false} LydianSharp2Of(p: ScalePattern)
    requires p.intervals == [P1, M2, m3, P4, P5, m6, M7]
    ensures ModeOf(p, 5).intervals == [P1, A2, M3, A4, P5, M6, M7]
  {
    AroundSeven();
  }

  /** LydianDominant: the mode on the fourth degree of melodic minor: an augmented fourth and a minor seventh. */
  lemma LydianDominantIntervals()
    ensures LydianDominant.intervals == [P1, M2, M3, A4, P5, M6, m7]
  {
    LydianDominantOf(MelodicMinor);
  }

  lemma {:induction false} LydianDominantOf(p: ScalePattern)
    requires p.intervals == [P1, M2, m3, P4, P5, M6, M7]
    ensures ModeOf(p, 3).intervals == [P1, M2, M3, A4, P5, M6, m7]
  {
    AroundSeven();
  }

  /** Altered: the mode on the seventh degree of melodic minor: every tone above the root altered. */
  lemma AlteredIntervals()
    ensures Altered.intervals == [P1, m2, m3, d4, d5, m6, m7]
  {
    AlteredOf(MelodicMinor);
  }

  lemma {:induction false} AlteredOf(p: ScalePattern)
    requires p.intervals == [P1, M2, m3, P4, P5, M6, M7]
    ensures ModeOf(p, 6).intervals == [P1, m2, m3, d4, d5, m6, m7]
  {
    AroundSeven();
  }

  /** The fifth mode of Dorian is the natural minor scale: modes of a mode
      are modes of the parent. */
  lemma NaturalMinorFromDorian()
    ensures ModeOf(Dorian, 4) == NaturalMinor
  {
    MajorClimbs();
    ModeCompose(Major, 1, 4);
    AroundBelowTwice(5, 7);
  }

  /** Degree `j` of the major scale in semitones. */
  lemma {:induction false} MajorSpan(j: int)
    requires 0 <= j < 7
    ensures |Major.intervals| == 7
    ensures Span(Major.intervals[j]) == [0, 2, 4, 5, 7, 9, 11][j]
  {
    if j == 0 {
    } else if j == 1 {
    } else if j == 2 {
    } else if j == 3 {
    } else if j == 4 {
    } else if j == 5 {
    } else {
    }
  }

  /** Degree `j` of the major scale lies within the octave by number. */
  lemma {:induction false} MajorSteps(j: int)
    requires 0 <= j < 7
    ensures |Major.intervals| == 7
    ensures 0 <= Steps(Major.intervals[j]) < 7
  {
    if j == 0 {
    } else if j == 1 {
    } else if j == 2 {
    } else if j == 3 {
    } else if j == 4 {
    } else if j == 5 {
    } else {
    }
  }

  lemma MajorClimbs()
    ensures Ascending(Major.intervals) && WithinOctave(Major.intervals)
  {
    var p := Major.intervals;
    forall j | 0 <= j < 7
      ensures 0 <= Span(p[j]) < 12 && 0 <= Steps(p[j]) < 7
      ensures j > 0 ==> Span(p[j - 1]) < Span(p[j])
    {
      MajorSpan(j);
      MajorSteps(j);
      if j > 0 {
        MajorSpan(j - 1);
      }
    }
    ClimbsByNeighbours(p);
  }

  /** A pattern within the octave whose neighbours climb climbs throughout. */
  lemma {:induction false} ClimbsByNeighbours(p: seq<Interval>)
    requires forall j | 0 <= j < |p| :: 0 <= Span(p[j]) < 12
    requires forall j | 0 < j < |p| :: Span(p[j - 1]) < Span(p[j])
    ensures Ascending(p)
  {
    forall j, k | 0 <= j < k < |p|
      ensures Span(p[j]) < Span(p[k])
    {
      NeighboursChain(p, j, k);
    }
  }

  /** Climbing neighbours carry the climb from degree `j` to degree `k`. */
  lemma {:induction false} NeighboursChain(p: seq<Interval>, j: nat, k: nat)
    requires j < k < |p|
    requires forall i | 0 < i < |p| :: Span(p[i - 1]) < Span(p[i])
    ensures Span(p[j]) < Span(p[k])
    decreases k - j
  {
    if j + 1 < k {
      NeighboursChain(p, j, k - 1);
    }
  }


  /** The two versions of a pattern chord differ tone by tone by at most an
      octave: as written, a tone whose scale degree lies below the chord's
      degree gets one octave more than the corrected tone, and every other
      tone is the same. */
  lemma {:induction false} AsWrittenAddsOctave(p: ScalePattern, deg: Degree, tones: nat)
    requires 1 <= deg.num <= |p.intervals|
    ensures forall i | 0 <= i < tones ::
              var t := Around(deg.num - 1 + 2 * i, |p.intervals|);
              var raw := Sub(p.intervals[t.index], p.intervals[deg.num - 1]);
              ChordOnPatternAsWritten(p, deg, tones).intervals[i] ==
                (if Steps(raw) < 0 then Add(ChordOnPattern(p, deg, tones).intervals[i], P8)
                 else ChordOnPattern(p, deg, tones).intervals[i])
  {
    forall i | 0 <= i < tones
      ensures var t := Around(deg.num - 1 + 2 * i, |p.intervals|);
              var raw := Sub(p.intervals[t.index], p.intervals[deg.num - 1]);
              ChordOnPatternAsWritten(p, deg, tones).intervals[i] ==
                (if Steps(raw) < 0 then Add(ChordOnPattern(p, deg, tones).intervals[i], P8)
                 else ChordOnPattern(p, deg, tones).intervals[i])
    {
      assert ChordOnPatternAsWritten(p, deg, tones).intervals[i] == PatternToneAsWritten(p.intervals, deg.num - 1, i);
      assert ChordOnPattern(p, deg, tones).intervals[i] == PatternTone(p.intervals, deg.num - 1, i);
    }
  }

  /** Stacking thirds on the major scale. As written, the seventh chord on the
      first degree is a major seventh and the triad on the second is minor,
      but the seventh chord on the fifth degree and the triad on the seventh
      are not the dominant seventh and the diminished triad; with the octave
      counted once, all four are the diatonic chords. */
  lemma MajorScaleChords()
    ensures ChordOnPatternAsWritten(Major, Plain(1), 4) == Maj7
    ensures ChordOnPatternAsWritten(Major, Plain(2), 3) == MinorTriad
    ensures ChordOnPatternAsWritten(Major, Plain(5), 4) != Dom7
    ensures ChordOnPatternAsWritten(Major, Plain(7), 3) != DiminishedTriad
    ensures ChordOnPattern(Major, Plain(1), 4) == Maj7
    ensures ChordOnPattern(Major, Plain(2), 3) == MinorTriad
    ensures ChordOnPattern(Major, Plain(5), 4) == Dom7
    ensures ChordOnPattern(Major, Plain(7), 3) == DiminishedTriad
  {
    TonicSeventh();
    SupertonicTriad();
    DominantSeventh();
    LeadingToneTriad();
  }

  lemma TonicSeventh()
    ensures ChordOnPatternAsWritten(Major, Plain(1), 4) == Maj7
    ensures ChordOnPattern(Major, Plain(1), 4) == Maj7
  {
    TonicSeventhTones(Major);
    assert MajorTriad.intervals == [P1, M3, P5];
    assert Maj7.intervals == [P1, M3, P5, M7];
  }

  /** No tone of the chord on the first degree wraps, so both versions agree. */
  lemma {:induction false} TonicSeventhTones(s: ScalePattern)
    requires s.intervals == [P1, M2, M3, P4, P5, M6, M7]
    ensures ChordOnPatternAsWritten(s, Plain(1), 4).intervals == [P1, M3, P5, M7]
    ensures ChordOnPattern(s, Plain(1), 4).intervals == [P1, M3, P5, M7]
  {
    AroundBelowTwice(0, 7);
    AroundBelowTwice(2, 7);
    AroundBelowTwice(4, 7);
    AroundBelowTwice(6, 7);
  }

  lemma SupertonicTriad()
    ensures ChordOnPatternAsWritten(Major, Plain(2), 3) == MinorTriad
    ensures ChordOnPattern(Major, Plain(2), 3) == MinorTriad
  {
    SupertonicTones(Major);
  }

  /** No tone of the triad on the second degree wraps, so both versions agree. */
  lemma {:induction false} SupertonicTones(s: ScalePattern)
    requires s.intervals == [P1, M2, M3, P4, P5, M6, M7]
    ensures ChordOnPatternAsWritten(s, Plain(2), 3).intervals == [P1, m3, P5]
    ensures ChordOnPattern(s, Plain(2), 3).intervals == [P1, m3, P5]
  {
    AroundBelowTwice(1, 7);
    AroundBelowTwice(3, 7);
    AroundBelowTwice(5, 7);
  }

  lemma DominantSeventh()
    ensures ChordOnPatternAsWritten(Major, Plain(5), 4) != Dom7
    ensures ChordOnPattern(Major, Plain(5), 4) == Dom7
  {
    DominantTones(Major);
    assert MajorTriad.intervals == [P1, M3, P5];
    assert Dom7.intervals == [P1, M3, P5, m7];
  }

  /** On the fifth degree the fifth and the seventh wrap: as written they are
      an octave above the corrected P5 and m7. */
  lemma {:induction false} DominantTones(s: ScalePattern)
    requires s.intervals == [P1, M2, M3, P4, P5, M6, M7]
    ensures ChordOnPatternAsWritten(s, Plain(5), 4).intervals == [P1, M3, Add(P5, P8), Add(m7, P8)]
    ensures ChordOnPattern(s, Plain(5), 4).intervals == [P1, M3, P5, m7]
  {
    AroundBelowTwice(4, 7);
    AroundBelowTwice(6, 7);
    AroundBelowTwice(8, 7);
    AroundBelowTwice(10, 7);
  }

  lemma LeadingToneTriad()
    ensures ChordOnPatternAsWritten(Major, Plain(7), 3) != DiminishedTriad
    ensures ChordOnPattern(Major, Plain(7), 3) == DiminishedTriad
  {
    LeadingTones(Major);
  }

  /** On the seventh degree the third and the fifth wrap: as written they are
      an octave above the corrected m3 and d5. */
  lemma {:induction false} LeadingTones(s: ScalePattern)
    requires s.intervals == [P1, M2, M3, P4, P5, M6, M7]
    ensures ChordOnPatternAsWritten(s, Plain(7), 3).intervals == [P1, Add(m3, P8), Add(d5, P8)]
    ensures ChordOnPattern(s, Plain(7), 3).intervals == [P1, m3, d5]
  {
    AroundBelowTwice(6, 7);
    AroundBelowTwice(8, 7);
    AroundBelowTwice(10, 7);
  }

  /** As written, the triad on the fifth degree of the major scale puts its
      fifth a twelfth above the root: the wrapped index is counted as an
      octave twice. The scale's own chord has that tone a fifth above. */
  lemma ChordOnPatternDoublesOctave(root: Note)
    ensures ChordOnPatternAsWritten(Major, Plain(5), 3).intervals == [P1, M3, Interval(1, 1)]
    ensures ChordOnPattern(Major, Plain(5), 3) == MajorTriad
    ensures var s := ScaleOn(root, Major);
            Midi(Plus(s.notes[4], ChordOnPatternAsWritten(Major, Plain(5), 3).intervals[2])) ==
              Midi(ChordTones(s, 4, 3)[2]) + 12
  {
    DominantTriadTones(Major);
    MajorClimbs();
    ChordOnMatchesPattern(root, Major, 4, 3);
    var c := ChordOnPattern(Major, Plain(5), 3).intervals;
    assert PatternTone(Major.intervals, 4, 2) == c[2];
  }

  lemma {:induction false} DominantTriadTones(s: ScalePattern)
    requires s.intervals == [P1, M2, M3, P4, P5, M6, M7]
    ensures ChordOnPatternAsWritten(s, Plain(5), 3).intervals == [P1, M3, Interval(1, 1)]
    ensures ChordOnPattern(s, Plain(5), 3).intervals == [P1, M3, P5]
  {
    AroundBelowTwice(4, 7);
    AroundBelowTwice(6, 7);
    AroundBelowTwice(8, 7);
  }

  /** The major pattern placed on C spells the white notes. */
  lemma {:induction false} CMajorNotes(p: ScalePattern)
    requires p.intervals == [P1, M2, M3, P4, P5, M6, M7]
    ensures ScaleOn(C, p).notes == [C, D, E, F, G, A, B]
  {
  }

  /** A triad pattern placed on a root: the root, its third and its fifth. */
  lemma {:induction false} TriadNotes(p: ChordPattern, root: Note)
    requires p.intervals == [P1, M3, P5]
    ensures Place(root, p).notes == [root, Plus(root, M3), Plus(root, P5)]
  {
  }

  /** In C major (the notes C D E F G A B) the G major triad is diatonic, a
      chord on A-flat is not, G is the fifth degree and F-sharp is no degree. */
  lemma {:induction false} DiatonicExamples(s: ScaleInstance, gMajor: ChordInstance, abMajor: ChordInstance)
    requires s.notes == [C, D, E, F, G, A, B]
    requires gMajor.notes == [G, Plus(G, M3), Plus(G, P5)]
    requires |abMajor.notes| > 0 && abMajor.notes[0] == Ab
    ensures IsDiatonicChord(s, gMajor)
    ensures !IsDiatonicChord(s, abMajor)
    ensures DegreeOfSpec(s, G) == Plain(5)
    ensures DegreeOfSpec(s, Fs) == NoDegree
  {
    assert s.notes[4] == G && s.notes[6] == B && s.notes[1] == D;
    assert !Contains(s, Ab);
    assert FirstSpelled(s.notes, G, 0) == Some(4);
  }
}
