/** Chord patterns (interval lists measured from the root), the chord instances
    they produce when placed on a root note, and slash chords (a chord over a
    separate bass note). */
module ChordPatterns {
  import opened Common
  import opened Intervals
  import opened Notes

  datatype ChordPattern = ChordPattern(intervals: seq<Interval>)

  /** The pitch classes (semitones above the root) that a list of intervals
      sounds. */
  function PitchClassesOf(ivs: seq<Interval>): (r: set<int>)
    ensures forall s | s in r :: 0 <= s < 12
  {
    if ivs == [] then {} else PitchClassesOf(ivs[..|ivs| - 1]) + {Semitones(ivs[|ivs| - 1])}
  }

  /** A pitch class is in the set exactly when some interval has that many
      semitones. */
  lemma {:induction false} PitchClassesOfMeaning(ivs: seq<Interval>)
    ensures forall s :: s in PitchClassesOf(ivs) <==> exists i :: 0 <= i < |ivs| && Semitones(ivs[i]) == s
  {
    if ivs != [] {
      var prev := ivs[..|ivs| - 1];
      PitchClassesOfMeaning(prev);
      assert forall i | 0 <= i < |prev| :: prev[i] == ivs[i];
    }
  }

  /** `inversion<M>`: the intervals rotated left by `m` places, after which
      the `m` intervals that wrapped round to the end are raised by an octave. */
  method Inversion(p: ChordPattern, m: nat) returns (r: ChordPattern)
    requires m < |p.intervals|
    ensures |r.intervals| == |p.intervals|
    ensures forall i | 0 <= i < |p.intervals| - m :: r.intervals[i] == p.intervals[i + m]
    ensures forall i | |p.intervals| - m <= i < |p.intervals| ::
              r.intervals[i] == Intervals.Add(p.intervals[i + m - |p.intervals|], P8)
    ensures PitchClassesOf(r.intervals) == PitchClassesOf(p.intervals)
  {
    var n := |p.intervals|;
    // std::rotate on the copy
    var ivs := new Interval[n](i requires 0 <= i < n =>
      if i < n - m then p.intervals[i + m] else p.intervals[i + m - n]);
    for i := n - m to n
      invariant forall k | 0 <= k < n - m :: ivs[k] == p.intervals[k + m]
      invariant forall k | n - m <= k < i :: ivs[k] == Intervals.Add(p.intervals[k + m - n], P8)
      invariant forall k | i <= k < n :: ivs[k] == p.intervals[k + m - n]
    {
      ivs[i] := Intervals.Add(ivs[i], P8);
    }
    r := ChordPattern(ivs[..]);
    InversionKeepsPitchClasses(p.intervals, r.intervals, m);
  }

  /** A rotation whose wrapped intervals are raised by an octave sounds the
      same pitch classes. */
  lemma {:induction false} InversionKeepsPitchClasses(ps: seq<Interval>, rs: seq<Interval>, m: nat)
    requires m < |ps| && |rs| == |ps|
    requires forall i | 0 <= i < |ps| - m :: rs[i] == ps[i + m]
    requires forall i | |ps| - m <= i < |ps| :: rs[i] == Intervals.Add(ps[i + m - |ps|], P8)
    ensures PitchClassesOf(rs) == PitchClassesOf(ps)
  {
    var n := |ps|;
    PitchClassesOfMeaning(ps);
    PitchClassesOfMeaning(rs);
    forall i | 0 <= i < n
      ensures Semitones(rs[i]) == Semitones(ps[if i < n - m then i + m else i + m - n])
    {
      if i >= n - m {
        OctaveKeepsSemitones(ps[i + m - n]);
      }
    }
    forall s | s in PitchClassesOf(ps)
      ensures s in PitchClassesOf(rs)
    {
      var j :| 0 <= j < n && Semitones(ps[j]) == s;
      var i := if j >= m then j - m else j + n - m;
      assert Semitones(rs[i]) == s;
    }
    forall s | s in PitchClassesOf(rs)
      ensures s in PitchClassesOf(ps)
    {
      var i :| 0 <= i < n && Semitones(rs[i]) == s;
    }
  }

  lemma {:induction false} OctaveKeepsSemitones(iv: Interval)
    ensures Semitones(Intervals.Add(iv, P8)) == Semitones(iv)
  {
  }

  /** `alter<I>`: interval `i` replaced, every other interval kept. */
  function Alter(p: ChordPattern, i: nat, iv: Interval): (r: ChordPattern)
    requires i < |p.intervals|
    ensures |r.intervals| == |p.intervals| && r.intervals[i] == iv
    ensures forall j | 0 <= j < |p.intervals| && j != i :: r.intervals[j] == p.intervals[j]
  {
    ChordPattern(p.intervals[i := iv])
  }

  /** `omit<I>`: interval `i` removed, the others kept in order. */
  function Omit(p: ChordPattern, i: nat): (r: ChordPattern)
    requires 1 < |p.intervals| && i < |p.intervals|
    ensures |r.intervals| == |p.intervals| - 1
    ensures forall j | 0 <= j < i :: r.intervals[j] == p.intervals[j]
    ensures forall j | i <= j < |r.intervals| :: r.intervals[j] == p.intervals[j + 1]
  {
    ChordPattern(p.intervals[..i] + p.intervals[i + 1..])
  }

  /** `add`: one more interval on top. */
  function AddTone(p: ChordPattern, iv: Interval): (r: ChordPattern)
    ensures |r.intervals| == |p.intervals| + 1
    ensures r.intervals[..|p.intervals|] == p.intervals && r.intervals[|p.intervals|] == iv
  {
    ChordPattern(p.intervals + [iv])
  }

  /** Adding a tone and omitting it again, or altering a tone to itself,
      gives back the pattern; two alterations of one tone keep the last. */
  lemma {:induction false} PatternEditLaws(p: ChordPattern, i: nat, a: Interval, b: Interval)
    requires i < |p.intervals|
    ensures 1 < |AddTone(p, a).intervals| ==> Omit(AddTone(p, a), |p.intervals|) == p
    ensures Alter(p, i, p.intervals[i]) == p
    ensures Alter(Alter(p, i, a), i, b) == Alter(p, i, b)
  {
    var q := AddTone(p, a);
    if 1 < |q.intervals| {
      assert Omit(q, |p.intervals|).intervals == p.intervals;
    }
    assert Alter(p, i, p.intervals[i]).intervals == p.intervals;
    assert Alter(Alter(p, i, a), i, b).intervals == Alter(p, i, b).intervals;
  }

  // ----- the named patterns -----

  const MajorTriad := ChordPattern([P1, M3, P5])
  const MinorTriad := ChordPattern([P1, m3, P5])
  const DiminishedTriad := ChordPattern([P1, m3, d5])
  const AugmentedTriad := ChordPattern([P1, M3, A5])
  const Sus2 := ChordPattern([P1, M2, P5])
  const Sus4 := ChordPattern([P1, P4, P5])

  const Maj6 := AddTone(MajorTriad, M6)
  const Min6 := AddTone(MinorTriad, M6)

  const Dom7 := AddTone(MajorTriad, m7)
  const Maj7 := AddTone(MajorTriad, M7)
  const Min7 := AddTone(MinorTriad, m7)
  const MinMaj7 := AddTone(MinorTriad, M7)
  const Dim7 := AddTone(DiminishedTriad, d7)
  const HalfDim7 := AddTone(DiminishedTriad, m7)
  const Aug7 := AddTone(AugmentedTriad, m7)
  const AugMaj7 := AddTone(AugmentedTriad, M7)
  const Dom7Sus4 := AddTone(Sus4, m7)

  const Dom7Sharp5 := Alter(Dom7, 2, A5)
  const Dom7Flat5 := Alter(Dom7, 2, d5)
  const Dom7Sharp9 := AddTone(Dom7, A9)
  const Dom7Flat9 := AddTone(Dom7, m9)
  const Dom7Sharp5Sharp9 := AddTone(Dom7Sharp5, A9)
  const Dom7Sharp5Flat9 := AddTone(Dom7Sharp5, m9)
  const Dom7Flat5Flat9 := AddTone(Dom7Flat5, m9)

  const Maj69 := AddTone(Maj6, M9)
  const Min69 := AddTone(Min6, M9)
  const Dom9 := AddTone(Dom7, M9)
  const Maj9 := AddTone(Maj7, M9)
  const Min9 := AddTone(Min7, M9)
  const MinMaj9 := AddTone(MinMaj7, M9)
  const Aug9 := AddTone(Aug7, M9)
  const Dom9Sus4 := AddTone(Dom7Sus4, M9)

  const Dom9Sharp11 := AddTone(Dom9, A11)
  const Dom9Flat13 := AddTone(Dom9, m13)
  const Dom9Sharp5 := Alter(Dom9, 2, A5)
  const Dom9Flat5 := Alter(Dom9, 2, d5)

  const Dom11 := AddTone(Dom9, P11)
  const Maj11 := AddTone(Maj9, P11)
  const Min11 := AddTone(Min9, P11)

  const Dom13 := AddTone(Dom11, M13)
  const Maj13 := AddTone(Maj11, M13)
  const Min13 := AddTone(Min11, M13)
  /** `dom13_sharp11` as written: `alter<4>` replaces tone 4 of the dominant
      thirteenth, which is its ninth, so the pattern keeps the natural
      eleventh beside the sharpened one and loses the ninth. */
  const Dom13Sharp11AsWritten := Alter(Dom13, 4, A11)

  /** The thirteenth with a raised eleventh: tone 5, the eleventh, altered. */
  const Dom13Sharp11 := Alter(Dom13, 5, A11)

  const PowerChord := Omit(MajorTriad, 1)
  const Dom9No5 := Omit(Dom9, 2)
  const Dom11No3 := Omit(Dom11, 1)
  const Dom13No5 := Omit(Dom13, 2)
  /** `dom13_no5_no11` as written: `omit<3>` of the no-fifth thirteenth
      removes its ninth and keeps the eleventh. */
  const Dom13No5No11AsWritten := Omit(Dom13No5, 3)

  /** The thirteenth without fifth and eleventh: tone 4 of the no-fifth
      thirteenth, the eleventh, removed. */
  const Dom13No5No11 := Omit(Dom13No5, 4)

  const Add9 := AddTone(MajorTriad, M9)
  const MinAdd9 := AddTone(MinorTriad, M9)
  const Add11 := AddTone(MajorTriad, P11)
  const Add13 := AddTone(MajorTriad, M13)

  lemma NamedPatternExamples()
    ensures Dom7.intervals == [P1, M3, P5, m7]
    ensures Dom13.intervals == [P1, M3, P5, m7, M9, P11, M13]
    ensures PowerChord.intervals == [P1, P5]
    ensures Dom9No5.intervals == [P1, M3, m7, M9]
    ensures Dom11No3.intervals == [P1, P5, m7, M9, P11]
  {
  }

  /** As written, the "13#11" pattern sounds the natural eleventh (5
      semitones) and no ninth (2 semitones). */
  lemma Dom13Sharp11AsWrittenLacksNinth()
    ensures Dom13Sharp11AsWritten.intervals == [P1, M3, P5, m7, A11, P11, M13]
    ensures 5 in PitchClassesOf(Dom13Sharp11AsWritten.intervals)
    ensures 2 !in PitchClassesOf(Dom13Sharp11AsWritten.intervals)
  {
    var ivs := Dom13Sharp11AsWritten.intervals;
    PitchClassesOfMeaning(ivs);
    assert Semitones(ivs[5]) == 5;
    forall i | 0 <= i < |ivs|
      ensures Semitones(ivs[i]) != 2
    {
    }
  }

  /** Corrected, the thirteenth with a raised eleventh keeps the ninth and
      sounds no natural eleventh. */
  lemma Dom13Sharp11HasNinthNotEleventh()
    ensures Dom13Sharp11.intervals == [P1, M3, P5, m7, M9, A11, M13]
    ensures 2 in PitchClassesOf(Dom13Sharp11.intervals) && 6 in PitchClassesOf(Dom13Sharp11.intervals)
    ensures 5 !in PitchClassesOf(Dom13Sharp11.intervals)
  {
    var ivs := Dom13Sharp11.intervals;
    PitchClassesOfMeaning(ivs);
    assert ivs == [P1, M3, P5, m7, M9, A11, M13];
    assert Semitones(ivs[4]) == 2 && Semitones(ivs[5]) == 6;
    forall i | 0 <= i < |ivs|
      ensures Semitones(ivs[i]) != 5
    {
    }
  }

  /** As written, the "no 5, no 11" thirteenth still has its eleventh and
      has lost its ninth. */
  lemma Dom13No5No11AsWrittenKeepsEleventh()
    ensures Dom13No5No11AsWritten.intervals == [P1, M3, m7, P11, M13]
  {
  }

  /** Corrected, it has neither fifth nor eleventh. */
  lemma Dom13No5No11OmitsFifthAndEleventh()
    ensures Dom13No5No11.intervals == [P1, M3, m7, M9, M13]
    ensures P5 !in Dom13No5No11.intervals && P11 !in Dom13No5No11.intervals
  {
  }

  // ----- chord instances -----

  datatype ChordInstance = ChordInstance(notes: seq<Note>)

  /** Note + pattern as a value: tone `i` lies `intervals[i]` above the root. */
  function Place(root: Note, p: ChordPattern): (c: ChordInstance)
    ensures |c.notes| == |p.intervals|
    ensures forall i | 0 <= i < |c.notes| :: Diff(c.notes[i], root) == p.intervals[i]
  {
    ChordInstance(seq(|p.intervals|, i requires 0 <= i < |p.intervals| => Plus(root, p.intervals[i])))
  }

  /** Placing a pattern moves every tone's pitch class by the interval's
      semitones and its MIDI number by the interval's exact size. */
  lemma {:induction false} PlaceSounds(root: Note, p: ChordPattern, i: nat)
    requires i < |p.intervals|
    ensures Pitch(Place(root, p).notes[i]) == (Pitch(root) + Semitones(p.intervals[i])) % 12
    ensures Midi(Place(root, p).notes[i]) == Midi(root) + 7 * p.intervals[i].fifths + 12 * p.intervals[i].octaves
  {
    PitchPlus(root, p.intervals[i]);
  }

  /** `note + chord_pattern`: fills the chord tone by tone. */
  method PlacePattern(root: Note, p: ChordPattern) returns (c: ChordInstance)
    ensures c == Place(root, p)
  {
    var notes: seq<Note> := [];
    for i := 0 to |p.intervals|
      invariant |notes| == i
      invariant forall k | 0 <= k < i :: notes[k] == Plus(root, p.intervals[k])
    {
      notes := notes + [Plus(root, p.intervals[i])];
    }
    c := ChordInstance(notes);
  }

  /** Index of the first tone with the smallest MIDI number (`min_element`). */
  function LowestIndex(notes: seq<Note>): (k: nat)
    requires |notes| >= 1
    ensures k < |notes|
    ensures forall j | 0 <= j < |notes| :: Midi(notes[k]) <= Midi(notes[j])
    ensures forall j | 0 <= j < k :: Midi(notes[j]) > Midi(notes[k])
  {
    if |notes| == 1 then 0
    else
      var k := LowestIndex(notes[..|notes| - 1]);
      assert forall j | 0 <= j < |notes| - 1 :: notes[..|notes| - 1][j] == notes[j];
      if Midi(notes[|notes| - 1]) < Midi(notes[k]) then |notes| - 1 else k
  }

  /** Index of the first tone with the largest MIDI number (`max_element`). */
  function HighestIndex(notes: seq<Note>): (k: nat)
    requires |notes| >= 1
    ensures k < |notes|
    ensures forall j | 0 <= j < |notes| :: Midi(notes[k]) >= Midi(notes[j])
    ensures forall j | 0 <= j < k :: Midi(notes[j]) < Midi(notes[k])
  {
    if |notes| == 1 then 0
    else
      var k := HighestIndex(notes[..|notes| - 1]);
      assert forall j | 0 <= j < |notes| - 1 :: notes[..|notes| - 1][j] == notes[j];
      if Midi(notes[|notes| - 1]) > Midi(notes[k]) then |notes| - 1 else k
  }

  function Lowest(c: ChordInstance): Note
    requires |c.notes| >= 1
  {
    c.notes[LowestIndex(c.notes)]
  }

  function Highest(c: ChordInstance): Note
    requires |c.notes| >= 1
  {
    c.notes[HighestIndex(c.notes)]
  }

  /** The lowest and highest tones are chord tones that bound every MIDI
      number of the chord. */
  lemma {:induction false} LowestHighestBound(c: ChordInstance)
    requires |c.notes| >= 1
    ensures Lowest(c) in c.notes && Highest(c) in c.notes
    ensures forall n | n in c.notes :: Midi(Lowest(c)) <= Midi(n) <= Midi(Highest(c))
  {
  }

  /** `contains`: some tone is spelled exactly like `target`. */
  predicate Contains(c: ChordInstance, target: Note) {
    exists i | 0 <= i < |c.notes| :: c.notes[i] == target
  }

  /** `contains_enharmonic`: some tone shares `target`'s pitch class. */
  predicate ContainsEnharmonic(c: ChordInstance, target: Note) {
    exists i | 0 <= i < |c.notes| :: Notes.IsEnharmonic(c.notes[i], target)
  }

  /** An exactly spelled tone is also an enharmonic one. */
  lemma {:induction false} ContainsIsEnharmonic(c: ChordInstance, target: Note)
    ensures Contains(c, target) ==> ContainsEnharmonic(c, target)
  {
    if Contains(c, target) {
      var i :| 0 <= i < |c.notes| && c.notes[i] == target;
      assert Notes.IsEnharmonic(c.notes[i], target);
    }
  }

  /** `simplify`: every tone respelled, the sound unchanged. */
  function SimplifyChord(c: ChordInstance, pref: AccidentalPreference): (r: ChordInstance)
    ensures |r.notes| == |c.notes|
    ensures forall i | 0 <= i < |c.notes| :: r.notes[i] == Simplify(c.notes[i], pref)
    ensures forall i | 0 <= i < |c.notes| :: Midi(r.notes[i]) == Midi(c.notes[i])
  {
    ChordInstance(seq(|c.notes|, i requires 0 <= i < |c.notes| => Simplify(c.notes[i], pref)))
  }

  // ----- slash chords -----

  datatype SlashChord = SlashChord(chord: ChordInstance, bass: Note)

  /** A tone raised by whole octaves until it sounds above `bass`. */
  function RaisedAbove(n: Note, bass: Note): (r: Note)
    ensures r.fifth == n.fifth && Pitch(r) == Pitch(n)
    ensures Midi(r) > Midi(bass)
    ensures Midi(n) > Midi(bass) ==> r == n
    ensures Midi(n) <= Midi(bass) ==> Midi(r) <= Midi(bass) + 12
    decreases if Midi(n) <= Midi(bass) then Midi(bass) - Midi(n) + 1 else 0
  {
    if Midi(n) <= Midi(bass) then
      var up := Plus(n, P8);
      assert Pitch(up) == Pitch(n) by { PitchPlus(n, P8); }
      RaisedAbove(up, bass)
    else n
  }

  /** Every tone raised above `bass`. */
  function RaiseAll(ch: ChordInstance, bass: Note): (r: ChordInstance)
    ensures |r.notes| == |ch.notes|
    ensures forall i | 0 <= i < |ch.notes| :: r.notes[i] == RaisedAbove(ch.notes[i], bass)
  {
    ChordInstance(seq(|ch.notes|, i requires 0 <= i < |ch.notes| => RaisedAbove(ch.notes[i], bass)))
  }

  /** The slash chord that the constructor builds, or `None` where it throws
      because the bass is not below every chord tone. */
  function SlashOf(ch: ChordInstance, bass: Note): Option<SlashChord>
    requires |ch.notes| >= 1
  {
    var tones := if ContainsEnharmonic(ch, bass) then RaiseAll(ch, bass) else ch;
    if Midi(bass) >= Midi(Lowest(tones)) then None else Some(SlashChord(tones, bass))
  }

  /** A built slash chord has its bass strictly below every tone, keeps each
      tone's spelling and pitch class, and is always built when the bass is
      one of the chord's pitch classes; otherwise it fails exactly when some
      tone is not above the bass. */
  lemma {:induction false} SlashOfFacts(ch: ChordInstance, bass: Note)
    requires |ch.notes| >= 1
    ensures SlashOf(ch, bass).Some? ==>
              var s := SlashOf(ch, bass).value;
              s.bass == bass && |s.chord.notes| == |ch.notes| &&
              (forall i | 0 <= i < |ch.notes| ::
                 Midi(s.chord.notes[i]) > Midi(bass) &&
                 s.chord.notes[i].fifth == ch.notes[i].fifth && Pitch(s.chord.notes[i]) == Pitch(ch.notes[i]))
    ensures ContainsEnharmonic(ch, bass) ==> SlashOf(ch, bass).Some?
    ensures !ContainsEnharmonic(ch, bass) ==>
              (SlashOf(ch, bass).None? <==> exists i | 0 <= i < |ch.notes| :: Midi(ch.notes[i]) <= Midi(bass))
  {
    if !ContainsEnharmonic(ch, bass) {
      var k := LowestIndex(ch.notes);
      if exists i | 0 <= i < |ch.notes| :: Midi(ch.notes[i]) <= Midi(bass) {
        var i :| 0 <= i < |ch.notes| && Midi(ch.notes[i]) <= Midi(bass);
        assert Midi(ch.notes[k]) <= Midi(ch.notes[i]);
      }
    }
  }

  /** The `while` loop of the constructor: one tone raised octave by octave. */
  method RaiseAbove(n0: Note, bass: Note) returns (n: Note)
    ensures n == RaisedAbove(n0, bass)
  {
    n := n0;
    while Midi(n) <= Midi(bass)
      invariant RaisedAbove(n, bass) == RaisedAbove(n0, bass)
      decreases Midi(bass) - Midi(n)
    {
      n := Plus(n, P8);
    }
  }

  /** The slash-chord constructor: when the chord contains the bass's pitch
      class, every tone is raised by octaves above the bass; the bass must
      then lie below the lowest tone. */
  method MakeSlash(ch: ChordInstance, bass: Note) returns (r: Option<SlashChord>)
    requires |ch.notes| >= 1
    ensures r == SlashOf(ch, bass)
  {
    var notes := ch.notes;
    if ContainsEnharmonic(ch, bass) {
      for i := 0 to |notes|
        invariant |notes| == |ch.notes|
        invariant forall k | 0 <= k < i :: notes[k] == RaisedAbove(ch.notes[k], bass)
        invariant forall k | i <= k < |notes| :: notes[k] == ch.notes[k]
      {
        var n := RaiseAbove(notes[i], bass);
        notes := notes[i := n];
      }
      assert ChordInstance(notes) == RaiseAll(ch, bass);
    }
    var tones := ChordInstance(notes);
    if Midi(bass) >= Midi(Lowest(tones)) {
      r := None;
    } else {
      r := Some(SlashChord(tones, bass));
    }
  }

  /** `all_notes`: the bass followed by the chord tones. */
  function AllNotes(s: SlashChord): (r: seq<Note>)
    ensures |r| == |s.chord.notes| + 1
    ensures r[0] == s.bass && r[1..] == s.chord.notes
  {
    [s.bass] + s.chord.notes
  }

  /** `simplify` of a slash chord respells the chord and the bass. */
  function SimplifySlash(s: SlashChord, pref: AccidentalPreference): (r: SlashChord)
    ensures r.bass == Simplify(s.bass, pref) && Midi(r.bass) == Midi(s.bass)
    ensures |r.chord.notes| == |s.chord.notes|
  {
    SlashChord(SimplifyChord(s.chord, pref), Simplify(s.bass, pref))
  }

  /** C major on C4 is C4 E4 G4 (MIDI 60, 64, 67); over G3 it forms a slash
      chord whose tones stay where they are. */
  lemma ChordExamples()
    ensures Place(AtOctave(C, 4), MajorTriad).notes == [AtOctave(C, 4), AtOctave(E, 4), AtOctave(G, 4)]
    ensures Midi(AtOctave(E, 4)) == 64 && Midi(AtOctave(G, 4)) == 67
    ensures SlashOf(Place(AtOctave(C, 4), MajorTriad), AtOctave(G, 3)).Some?
  {
    TriadOnC4();
    assert Place(AtOctave(C, 4), MajorTriad) == ChordInstance([AtOctave(C, 4), AtOctave(E, 4), AtOctave(G, 4)]);
    SlashOverG3();
  }

  /** C4 + the major triad is C4 E4 G4. */
  lemma TriadOnC4()
    ensures Place(AtOctave(C, 4), MajorTriad).notes == [AtOctave(C, 4), AtOctave(E, 4), AtOctave(G, 4)]
    ensures Midi(AtOctave(E, 4)) == 64 && Midi(AtOctave(G, 4)) == 67
  {
    var c := Place(AtOctave(C, 4), MajorTriad);
    assert c.notes == [AtOctave(C, 4), AtOctave(E, 4), AtOctave(G, 4)];
  }

  /** G3 sounds as the triad's fifth, so C4 E4 G4 over G3 is accepted. */
  lemma SlashOverG3()
    ensures SlashOf(ChordInstance([AtOctave(C, 4), AtOctave(E, 4), AtOctave(G, 4)]), AtOctave(G, 3)).Some?
  {
    var c := ChordInstance([AtOctave(C, 4), AtOctave(E, 4), AtOctave(G, 4)]);
    assert Notes.IsEnharmonic(c.notes[2], AtOctave(G, 3));
    SlashOfFacts(c, AtOctave(G, 3));
  }
}
