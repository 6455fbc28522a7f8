/** Chords read in a key: the root of each interpretation is placed on a
    scale degree (on a scale note, or failing that a semitone above or below
    one) and written as a Roman numeral whose case tells major from minor and
    whose suffix carries the rest of the quality. */
module DegreeMapper {
  import opened Common
  import opened Notes
  import opened Degrees
  import opened PitchClassSets
  import opened ChordPatterns
  import opened ChordCatalog
  import opened ChordMatcher

  /** `degree_analysis`: the chord interpretation, its degree in the key and
      the text shown for it. */
  datatype DegreeAnalysis = DegreeAnalysis(chord: Analysis, deg: Degree, roman: string)

  const RomanUpper: seq<string> := ["I", "II", "III", "IV", "V", "VI", "VII"]
  const RomanLower: seq<string> := ["i", "ii", "iii", "iv", "v", "vi", "vii"]

  predicate StartsWith(s: string, p: string) {
    |p| <= |s| && s[..|p|] == p
  }

  /** `is_major_quality`: a quality reads as major unless it is minor (a
      leading 'm' that does not begin "maj") or diminished. */
  function IsMajorQuality(q: string): (r: bool)
    ensures !r <==> q != "" && !StartsWith(q, "maj") && (q[0] == 'm' || StartsWith(q, "dim"))
  {
    if q == "" then true
    else if StartsWith(q, "maj") then true
    else if q[0] == 'm' then false
    else if StartsWith(q, "dim") then false
    else true
  }

  /** `roman_quality_suffix`: what follows the numeral. Triads need nothing
      (the case already says major or minor), diminished and augmented get
      their signs, a minor quality loses its leading 'm' and an augmented one
      has "aug" replaced by "+". */
  function RomanQualitySuffix(q: string): (r: string)
    ensures q == "" || q == "m" ==> r == ""
    ensures q == "dim" ==> r == "\U{00B0}"
    ensures q == "aug" ==> r == "+"
    ensures q == "m7b5" ==> r == "\U{00F8}7"
    ensures q == "dim7" ==> r == "\U{00B0}7"
    ensures q !in {"", "m", "dim", "aug", "m7b5", "dim7"} ==>
              if StartsWith(q, "maj") then r == q
              else if q[0] == 'm' then r == q[1..]
              else if StartsWith(q, "aug") then r == "+" + q[3..]
              else r == q
  {
    if q == "" then ""
    else if q == "m" then ""
    else if q == "dim" then "\U{00B0}"
    else if q == "aug" then "+"
    else if q == "m7b5" then "\U{00F8}7"
    else if q == "dim7" then "\U{00B0}7"
    else if StartsWith(q, "maj") then q
    else if StartsWith(q, "m(") then q[1..]
    else if q[0] == 'm' then q[1..]
    else if StartsWith(q, "aug") then "+" + q[3..]
    else q
  }

  /** Reads a catalog quality back from a numeral's case and suffix: the
      inverse of `IsMajorQuality` and `RomanQualitySuffix` on catalog names. */
  function QualityFromRoman(major: bool, suffix: string): string {
    if major then
      if suffix == "+" then "aug"
      else if |suffix| >= 1 && suffix[0] == '+' then "aug" + suffix[1..]
      else suffix
    else
      if suffix == "" then "m"
      else if suffix == "\U{00B0}" then "dim"
      else if suffix == "\U{00F8}7" then "m7b5"
      else if suffix == "\U{00B0}7" then "dim7"
      else "m" + suffix
  }

  /** The qualities a numeral can carry without ambiguity: none begins
      with '+', the only diminished ones are "dim" and "dim7", and none is
      an 'm' followed by a diminished or half-diminished sign. */
  predicate Decodable(q: string) {
    q == "" ||
    (q[0] != '+' &&
     (StartsWith(q, "dim") ==> q == "dim" || q == "dim7") &&
     q != "m\U{00B0}" && q != "m\U{00F8}7" && q != "m\U{00B0}7")
  }

  /** A numeral loses nothing: the case of the numeral and its suffix give
      the quality back, so two such qualities on the same degree never print
      alike. Every catalogue name is decodable (`CatalogNamesDecodable`); a
      slash-fallback quality such as "dim/G" is not. */
  lemma {:induction false} QualityRoundTrip(q: string)
    requires Decodable(q)
    ensures QualityFromRoman(IsMajorQuality(q), RomanQualitySuffix(q)) == q
  {
    var suffix := RomanQualitySuffix(q);
    if q == "" || q == "m" || q == "dim" || q == "aug" || q == "dim7" {
    } else if q == "m7b5" {
      assert q[..3][1] == '7';
      assert !IsMajorQuality(q);
    } else if StartsWith(q, "maj") {
      assert suffix == q && q[0] == 'm';
    } else if q[0] == 'm' {
      assert suffix == q[1..];
      assert q == "m" + q[1..];
    } else if StartsWith(q, "aug") {
      assert suffix == "+" + q[3..] && |q| > 3;
      assert q == "aug" + q[3..];
    } else {
      assert !StartsWith(q, "dim");
      assert suffix == q;
    }
  }

  /** Every quality name of the catalogue reads back from its numeral. */
  lemma CatalogNamesDecodable()
    ensures forall k | 0 <= k < |Entries| :: Decodable(Entries[k].0)
  {
    Run1NamesDecodable();
    Run2NamesDecodable();
    Run3NamesDecodable();
    Run4NamesDecodable();
    Run5NamesDecodable();
    var e := Entries;
    forall k | 0 <= k < |e|
      ensures Decodable(e[k].0)
    {
      if k < 9 {
        assert e[k] == Run1[k];
      } else if k < 18 {
        assert e[k] == Run2[k - 9];
      } else if k < 27 {
        assert e[k] == Run3[k - 18];
      } else if k < 36 {
        assert e[k] == Run4[k - 27];
      } else {
        assert e[k] == Run5[k - 36];
      }
    }
  }

  lemma Run1NamesDecodable()
    ensures |Run1| == 9 && forall k | 0 <= k < 9 :: Decodable(Run1[k].0)
  {
    assert Run1[0].0 == "13" && Run1[1].0 == "maj13" && Run1[2].0 == "m13" && Run1[3].0 == "13#11" && Run1[4].0 == "11";
    assert Run1[5].0 == "maj11" && Run1[6].0 == "m11" && Run1[7].0 == "9#11" && Run1[8].0 == "9b13";
  }

  lemma Run2NamesDecodable()
    ensures |Run2| == 9 && forall k | 0 <= k < 9 :: Decodable(Run2[k].0)
  {
    assert Run2[0].0 == "9" && Run2[1].0 == "maj9" && Run2[2].0 == "m9" && Run2[3].0 == "m(maj9)" && Run2[4].0 == "aug9";
    assert Run2[5].0 == "9sus4" && Run2[6].0 == "9b5" && Run2[7].0 == "6/9" && Run2[8].0 == "m6/9";
  }

  lemma Run3NamesDecodable()
    ensures |Run3| == 9 && forall k | 0 <= k < 9 :: Decodable(Run3[k].0)
  {
    assert Run3[0].0 == "7b9" && Run3[1].0 == "7#9" && Run3[2].0 == "7#5b9" && Run3[3].0 == "7#5#9" && Run3[4].0 == "7b5b9";
    assert Run3[5].0 == "add9" && Run3[6].0 == "m(add9)" && Run3[7].0 == "add11" && Run3[8].0 == "6";
  }

  lemma Run4NamesDecodable()
    ensures |Run4| == 9 && forall k | 0 <= k < 9 :: Decodable(Run4[k].0)
  {
    assert Run4[0].0 == "m6" && Run4[1].0 == "7" && Run4[2].0 == "maj7" && Run4[3].0 == "m7" && Run4[4].0 == "m(maj7)";
    assert Run4[5].0 == "dim7" && Run4[6].0 == "m7b5" && Run4[7].0 == "aug7" && Run4[8].0 == "maj7#5";
  }

  lemma Run5NamesDecodable()
    ensures |Run5| == 9 && forall k | 0 <= k < 9 :: Decodable(Run5[k].0)
  {
    assert Run5[0].0 == "7sus4" && Run5[1].0 == "7b5" && Run5[2].0 == "" && Run5[3].0 == "m" && Run5[4].0 == "dim";
    assert Run5[5].0 == "aug" && Run5[6].0 == "sus2" && Run5[7].0 == "sus4" && Run5[8].0 == "5";
  }

  /** Without the first condition the round trip fails: "+" reads back as
      "aug"; without the second, "dim9" reads back as "mdim9". */
  lemma AmbiguousQualities()
    ensures QualityFromRoman(IsMajorQuality("+"), RomanQualitySuffix("+")) == "aug"
    ensures QualityFromRoman(IsMajorQuality("dim9"), RomanQualitySuffix("dim9")) == "mdim9"
  {
    assert "dim9"[..3] == "dim";
    assert RomanQualitySuffix("dim9") == "dim9";
  }

  // ----- placing the root in the key -----

  /** The first scale position from `i` on whose pitch class is `pc`. */
  function ExactFrom(scale: seq<Note>, pc: int, i: nat): (r: Option<nat>)
    requires i <= |scale|
    ensures r.Some? ==> i <= r.value < |scale| && Pitch(scale[r.value]) == pc &&
                        forall j | i <= j < r.value :: Pitch(scale[j]) != pc
    ensures r.None? <==> forall j | i <= j < |scale| :: Pitch(scale[j]) != pc
    decreases |scale| - i
  {
    if i == |scale| then None
    else if Pitch(scale[i]) == pc then Some(i)
    else ExactFrom(scale, pc, i + 1)
  }

  /** Whether `pc` lies a semitone above (+1) or below (-1) `sp`, else 0. */
  function Neighbour(pc: int, sp: int): (r: int)
    requires 0 <= pc < 12 && 0 <= sp < 12
    ensures r == 1 <==> (sp + 1) % 12 == pc
    ensures r == -1 <==> (sp + 11) % 12 == pc
    ensures r != 0 ==> (sp + r) % 12 == pc
  {
    var diff := RelPc(pc, sp);
    if diff == 1 then 1 else if diff == 11 then -1 else 0
  }

  /** The first scale position from `i` on that is a semitone away from
      `pc`, with the direction of the step. */
  function NearFrom(scale: seq<Note>, pc: int, i: nat): (r: Option<(nat, int)>)
    requires 0 <= pc < 12 && i <= |scale|
    ensures r.Some? ==> i <= r.value.0 < |scale| && r.value.1 != 0 &&
                        r.value.1 == Neighbour(pc, Pitch(scale[r.value.0])) &&
                        forall j | i <= j < r.value.0 :: Neighbour(pc, Pitch(scale[j])) == 0
    ensures r.None? <==> forall j | i <= j < |scale| :: Neighbour(pc, Pitch(scale[j])) == 0
    decreases |scale| - i
  {
    if i == |scale| then None
    else
      var step := Neighbour(pc, Pitch(scale[i]));
      if step != 0 then Some((i, step)) else NearFrom(scale, pc, i + 1)
  }

  /** The degree of pitch class `pc` in the key: the first scale note of that
      pitch class, otherwise the first scale note a semitone away, altered
      towards `pc`. */
  function Placement(scale: seq<Note>, pc: int): Option<Degree>
    requires 0 <= pc < 12
  {
    match ExactFrom(scale, pc, 0)
    case Some(i) => Some(Degree(i + 1, 0))
    case None =>
      match NearFrom(scale, pc, 0)
      case Some((i, step)) => Some(Degree(i + 1, step))
      case None => None
  }

  /** The numeral for a placed chord: accidental, numeral in the case the
      quality calls for, quality suffix, omissions. */
  function RomanNumeral(a: Analysis, d: Degree): string
    requires d.num >= 1
  {
    var numerals := if IsMajorQuality(a.quality) then RomanUpper else RomanLower;
    Prefix(d) + numerals[(d.num - 1) % 7] + RomanQualitySuffix(a.quality) + OmissionsText(a.omissions)
  }

  /** `make_degree_analysis` as a value. */
  function DegreeAnalysisOf(a: Analysis, scale: seq<Note>): (r: DegreeAnalysis)
    ensures r.chord == a
  {
    var pc := Pitch(Simplify(a.root, Natural));
    match Placement(scale, pc)
    case Some(d) => DegreeAnalysis(a, d, RomanNumeral(a, d))
    case None => DegreeAnalysis(a, NoDegree, AnalysisStr(a))
  }

  /** The degree names a scale note whose pitch class, moved by the
      alteration, is the root's; a scale note of the root's own pitch class
      always wins over a neighbour, and the earliest one wins among equals.
      Without any such note the degree is unset and the text is the plain
      chord name. */
  lemma {:induction false} DegreeAnalysisFacts(a: Analysis, scale: seq<Note>)
    ensures var r := DegreeAnalysisOf(a, scale);
            var pc := Pitch(a.root);
            r.chord == a &&
            (IsSet(r.deg) ==>
               r.deg.num <= |scale| && -1 <= r.deg.alter <= 1 &&
               (Pitch(scale[r.deg.num - 1]) + r.deg.alter) % 12 == pc &&
               StartsWith(r.roman, Prefix(r.deg))) &&
            (IsSet(r.deg) && r.deg.alter == 0 ==>
               forall j | 0 <= j < r.deg.num - 1 :: Pitch(scale[j]) != pc) &&
            (IsSet(r.deg) && r.deg.alter != 0 ==>
               (forall j | 0 <= j < |scale| :: Pitch(scale[j]) != pc) &&
               forall j | 0 <= j < r.deg.num - 1 :: (Pitch(scale[j]) + 1) % 12 != pc && (Pitch(scale[j]) + 11) % 12 != pc) &&
            (!IsSet(r.deg) <==>
               forall j | 0 <= j < |scale| ::
                 Pitch(scale[j]) != pc && (Pitch(scale[j]) + 1) % 12 != pc && (Pitch(scale[j]) + 11) % 12 != pc) &&
            (!IsSet(r.deg) ==> r.deg == NoDegree && r.roman == AnalysisStr(a))
  {
    var pc := Pitch(Simplify(a.root, Natural));
    assert pc == Pitch(a.root);
    var r := DegreeAnalysisOf(a, scale);
    match ExactFrom(scale, pc, 0)
    case Some(i) =>
    case None =>
      match NearFrom(scale, pc, 0)
      case Some((i, step)) =>
      case None =>
  }

  /** The two scans of `make_degree_analysis`: first for a scale note of
      the root's pitch class, then for one a semitone away. The index is -1
      when neither finds one. */
  method LocateRoot(scale: seq<Note>, rootPitch: int) returns (degIdx: int, offset: int)
    requires 0 <= rootPitch < 12
    ensures Placement(scale, rootPitch).None? <==> degIdx == -1
    ensures Placement(scale, rootPitch).Some? ==>
              0 <= degIdx < |scale| && Placement(scale, rootPitch).value == Degree(degIdx + 1, offset)
  {
    degIdx := -1;
    offset := 0;
    for i := 0 to |scale|
      invariant degIdx == -1 && ExactFrom(scale, rootPitch, 0) == ExactFrom(scale, rootPitch, i)
    {
      if Pitch(scale[i]) == rootPitch {
        degIdx := i;
        break;
      }
    }
    if degIdx != -1 {
      return;
    }
    for i := 0 to |scale|
      invariant degIdx == -1 && offset == 0 && NearFrom(scale, rootPitch, 0) == NearFrom(scale, rootPitch, i)
    {
      var sp := Pitch(scale[i]);
      var diff := (rootPitch - sp + 12) % 12;
      assert diff == RelPc(rootPitch, sp);
      if diff == 1 {
        degIdx := i;
        offset := 1;
        break;
      }
      if diff == 11 {
        degIdx := i;
        offset := -1;
        break;
      }
    }
  }

  /** `make_degree_analysis`: the root's degree, then the numeral built
      piece by piece; the plain chord name when the root has no degree. */
  method MakeDegreeAnalysis(a: Analysis, scale: seq<Note>) returns (r: DegreeAnalysis)
    ensures r == DegreeAnalysisOf(a, scale)
  {
    var rootPitch := Pitch(Simplify(a.root, Natural));
    var degIdx, offset := LocateRoot(scale, rootPitch);
    if degIdx == -1 {
      r := DegreeAnalysis(a, NoDegree, AnalysisStr(a));
      return;
    }
    var deg := Degree(degIdx + 1, offset);
    var roman := Prefix(deg);
    var romanIdx := degIdx % 7;
    if IsMajorQuality(a.quality) {
      roman := roman + RomanUpper[romanIdx];
    } else {
      roman := roman + RomanLower[romanIdx];
    }
    roman := roman + RomanQualitySuffix(a.quality);
    if a.omissions != [] {
      var joined := JoinParts(a.omissions, ",");
      roman := roman + ("(" + joined + ")");
    }
    r := DegreeAnalysis(a, deg, roman);
  }

  /** The C major scale as its notes. */
  const CMajorNotes: seq<Note> := [C, D, E, F, G, A, B]

  /** The pitch classes of C major, position by position. */
  lemma {:induction false} CMajorPitch(j: int)
    requires 0 <= j < 7
    ensures |CMajorNotes| == 7
    ensures Pitch(CMajorNotes[j]) == [0, 2, 4, 5, 7, 9, 11][j]
  {
    if j == 0 {
    } else if j == 1 {
    } else if j == 2 {
    } else if j == 3 {
    } else if j == 4 {
    } else if j == 5 {
    } else {
    }
  }

  /** The placement is the first neighbour when no scale note matches the
      pitch class exactly. */
  lemma {:induction false} NeighbourPlacement(scale: seq<Note>, pc: int, i: nat)
    requires 0 <= pc < 12 && i < |scale|
    requires forall j | 0 <= j < |scale| :: Pitch(scale[j]) != pc
    requires forall j | 0 <= j < i :: Neighbour(pc, Pitch(scale[j])) == 0
    requires Neighbour(pc, Pitch(scale[i])) != 0
    ensures Placement(scale, pc) == Some(Degree(i + 1, Neighbour(pc, Pitch(scale[i]))))
  {
    var near := NearFrom(scale, pc, 0);
    assert near.Some?;
    assert near.value.0 == i;
  }

  /** A-flat is a semitone above G, the fifth degree of C major, and G is
      scanned before A. */
  lemma FlatSixthPlacement(scale: seq<Note>)
    requires scale == CMajorNotes
    ensures Placement(scale, 8) == Some(Degrees.Sharp(5))
  {
    forall j | 0 <= j < 7
      ensures Pitch(scale[j]) != 8
      ensures j < 4 ==> Neighbour(8, Pitch(scale[j])) == 0
    {
      CMajorPitch(j);
    }
    CMajorPitch(4);
    NeighbourPlacement(scale, 8, 4);
  }

  /** An A-flat major triad in C major is read as a raised fifth degree. */
  lemma FlatSixthExample()
    ensures DegreeAnalysisOf(Analysis(Ab, "", None, 0, []), CMajorNotes).roman == "#V"
  {
    assert Pitch(Ab) == 8;
    assert Pitch(Simplify(Ab, Natural)) == 8;
    FlatSixthPlacement(CMajorNotes);
    assert RomanNumeral(Analysis(Ab, "", None, 0, []), Degrees.Sharp(5)) == "#" + "V" + "" + "";
  }

  /** B-flat is a semitone above A, the sixth degree of C major. */
  lemma FlatSeventhPlacement(scale: seq<Note>)
    requires scale == CMajorNotes
    ensures Placement(scale, 10) == Some(Degrees.Sharp(6))
  {
    forall j | 0 <= j < 7
      ensures Pitch(scale[j]) != 10
      ensures j < 5 ==> Neighbour(10, Pitch(scale[j])) == 0
    {
      CMajorPitch(j);
    }
    CMajorPitch(5);
    NeighbourPlacement(scale, 10, 5);
  }

  /** B-flat seventh in C major: a raised sixth degree with the "7" kept. */
  lemma FlatSeventhExample()
    ensures DegreeAnalysisOf(Analysis(Bb, "7", None, 0, []), CMajorNotes).roman == "#VI7"
  {
    assert Pitch(Bb) == 10;
    assert Pitch(Simplify(Bb, Natural)) == 10;
    FlatSeventhPlacement(CMajorNotes);
    assert IsMajorQuality("7") && RomanQualitySuffix("7") == "7";
    assert RomanNumeral(Analysis(Bb, "7", None, 0, []), Degrees.Sharp(6)) == "#" + "VI" + "7" + "";
  }

  /** D minor seventh sits on the second degree, in lower case, without its
      'm'. */
  lemma SupertonicExample()
    ensures Placement(CMajorNotes, 2) == Some(Plain(2))
    ensures DegreeAnalysisOf(Analysis(D, "m7", None, 0, []), CMajorNotes).roman == "ii7"
  {
    CMajorPitch(0);
    CMajorPitch(1);
    assert Pitch(Simplify(D, Natural)) == 2;
    assert ExactFrom(CMajorNotes, 2, 0) == Some(1);
    assert !IsMajorQuality("m7") && RomanQualitySuffix("m7") == "7";
  }

  // ----- analysis in a key -----

  /** Every interpretation placed in the key, in order. */
  function InKey(rs: seq<Analysis>, scale: seq<Note>): (r: seq<DegreeAnalysis>)
    ensures |r| == |rs|
    ensures forall i | 0 <= i < |rs| :: r[i] == DegreeAnalysisOf(rs[i], scale) && r[i].chord == rs[i]
  {
    seq(|rs|, i requires 0 <= i < |rs| => DegreeAnalysisOf(rs[i], scale))
  }

  /** `analyze_in_key` as a value. */
  function AnalyzeInKeySpec(notes: seq<Note>, scale: seq<Note>): (r: seq<DegreeAnalysis>)
    requires |notes| >= 1
    ensures |r| == |AnalyzeAllSpec(notes)|
    ensures forall i | 0 <= i < |r| :: r[i].chord == AnalyzeAllSpec(notes)[i]
  {
    InKey(AnalyzeAllSpec(notes), scale)
  }

  /** The loop of `analyze_in_key`: each interpretation placed in the key, in order. */
  method PlaceAll(rs: seq<Analysis>, scale: seq<Note>) returns (r: seq<DegreeAnalysis>)
    ensures r == InKey(rs, scale)
  {
    r := [];
    for i := 0 to |rs|
      invariant |r| == i
      invariant forall j | 0 <= j < i :: r[j] == DegreeAnalysisOf(rs[j], scale)
    {
      var da := MakeDegreeAnalysis(rs[i], scale);
      r := r + [da];
    }
  }

  /** `analyze_in_key`: one degree analysis per interpretation, in the order
      of the plain analysis. */
  method AnalyzeInKey(notes: seq<Note>, scale: seq<Note>) returns (r: seq<DegreeAnalysis>)
    requires |notes| >= 1
    ensures r == AnalyzeInKeySpec(notes, scale)
  {
    var ar := AnalyzeAll(notes);
    r := PlaceAll(ar, scale);
  }

  /** `analyze_in_key_with_root` as a value. */
  function AnalyzeInKeyWithRootSpec(notes: seq<Note>, root: Note, scale: seq<Note>): Option<DegreeAnalysis>
    requires |notes| >= 1
  {
    var ca := AnalyzeWithRootSpec(notes, root);
    if ca.Some? then Some(DegreeAnalysisOf(ca.value, scale)) else None
  }

  /** `analyze_in_key_with_root`: the fixed-root analysis placed in the key,
      or nothing when there is none. */
  method AnalyzeInKeyWithRoot(notes: seq<Note>, root: Note, scale: seq<Note>) returns (r: Option<DegreeAnalysis>)
    requires |notes| >= 1
    ensures r == AnalyzeInKeyWithRootSpec(notes, root, scale)
    ensures r.None? <==> AnalyzeWithRootSpec(notes, root).None?
    ensures r.Some? ==> r.value.chord == AnalyzeWithRootSpec(notes, root).value
  {
    var ca := AnalyzeWithRoot(notes, root);
    if ca.None? {
      return None;
    }
    var da := MakeDegreeAnalysis(ca.value, scale);
    DegreeAnalysisFacts(ca.value, scale);
    r := Some(da);
  }

  /** `slash_chord_instance::analyze(key)` as a value: bass and chord
      together, otherwise the chord alone with "/bass" added to each quality
      before it is placed in the key. */
  function SlashAnalyzeInKeySpec(s: SlashChord, scale: seq<Note>): seq<DegreeAnalysis>
    requires |s.chord.notes| >= 1
  {
    var direct := AnalyzeInKeySpec(AllNotes(s), scale);
    if direct != [] then direct
    else InKey(WithSuffix(AnalyzeAllSpec(s.chord.notes), BassSuffix(s.bass)), scale)
  }

  /** Reading a slash chord in a key places exactly the interpretations the
      keyless slash analysis finds, in the same order. */
  lemma {:induction false} SlashInKeyAgrees(s: SlashChord, scale: seq<Note>)
    requires |s.chord.notes| >= 1
    ensures |SlashAnalyzeInKeySpec(s, scale)| == |SlashAnalyzeSpec(s)|
    ensures forall i | 0 <= i < |SlashAnalyzeSpec(s)| ::
              SlashAnalyzeInKeySpec(s, scale)[i] == DegreeAnalysisOf(SlashAnalyzeSpec(s)[i], scale)
  {
  }

  /** The fallback loop of the slash analysis in a key: each degree
      analysis is redone after its chord's quality gains `suffix`. */
  method AddSuffixInKey(rs: seq<DegreeAnalysis>, suffix: string, scale: seq<Note>, ghost inner: seq<Analysis>)
      returns (r: seq<DegreeAnalysis>)
    requires |rs| == |inner| && forall j | 0 <= j < |rs| :: rs[j].chord == inner[j]
    ensures r == InKey(WithSuffix(inner, suffix), scale)
  {
    ghost var items := WithSuffix(inner, suffix);
    ghost var target := InKey(items, scale);
    r := rs;
    for i := 0 to |r|
      invariant |r| == |items| == |target|
      invariant forall j | 0 <= j < i :: r[j] == target[j]
      invariant forall j | i <= j < |r| :: r[j].chord == inner[j]
    {
      var chord := r[i].chord.(quality := r[i].chord.quality + suffix);
      assert chord == items[i];
      var da := MakeDegreeAnalysis(chord, scale);
      r := r[i := da];
    }
  }

  /** `slash_chord_instance::analyze(key)`: the bass and chord together,
      otherwise the chord's own analyses with the bass added to each. */
  method SlashAnalyzeInKey(s: SlashChord, scale: seq<Note>) returns (r: seq<DegreeAnalysis>)
    requires |s.chord.notes| >= 1
    ensures r == SlashAnalyzeInKeySpec(s, scale)
  {
    r := AnalyzeInKey(AllNotes(s), scale);
    if r != [] {
      return;
    }
    var chordResult := AnalyzeInKey(s.chord.notes, scale);
    var suffix := "/" + PitchName(Simplify(s.bass, Natural));
    assert suffix == BassSuffix(s.bass);
    r := AddSuffixInKey(chordResult, suffix, scale, AnalyzeAllSpec(s.chord.notes));
  }

  /** `slash_chord_instance::analyze(key, root)` as a value. */
  function SlashAnalyzeInKeyWithRootSpec(s: SlashChord, root: Note, scale: seq<Note>): Option<DegreeAnalysis>
    requires |s.chord.notes| >= 1
  {
    var direct := AnalyzeInKeyWithRootSpec(AllNotes(s), root, scale);
    if direct.Some? then direct
    else
      var inner := AnalyzeInKeyWithRootSpec(s.chord.notes, root, scale);
      if inner.Some? then
        var chord := inner.value.chord.(quality := inner.value.chord.quality + BassSuffix(s.bass));
        Some(DegreeAnalysisOf(chord, scale))
      else None
  }

  /** The fixed-root reading in a key places the keyless fixed-root slash
      analysis, and is empty exactly when that is. */
  lemma {:induction false} SlashInKeyWithRootAgrees(s: SlashChord, root: Note, scale: seq<Note>)
    requires |s.chord.notes| >= 1
    ensures SlashAnalyzeInKeyWithRootSpec(s, root, scale).None? <==> SlashAnalyzeWithRootSpec(s, root).None?
    ensures SlashAnalyzeWithRootSpec(s, root).Some? ==>
              SlashAnalyzeInKeyWithRootSpec(s, root, scale) ==
                Some(DegreeAnalysisOf(SlashAnalyzeWithRootSpec(s, root).value, scale))
  {
    var inner := AnalyzeWithRootSpec(s.chord.notes, root);
    if inner.Some? {
      DegreeAnalysisFacts(inner.value, scale);
    }
  }

  /** `slash_chord_instance::analyze(key, root)`. */
  method SlashAnalyzeInKeyWithRoot(s: SlashChord, root: Note, scale: seq<Note>) returns (r: Option<DegreeAnalysis>)
    requires |s.chord.notes| >= 1
    ensures r == SlashAnalyzeInKeyWithRootSpec(s, root, scale)
  {
    r := AnalyzeInKeyWithRoot(AllNotes(s), root, scale);
    if r.Some? {
      return;
    }
    r := AnalyzeInKeyWithRoot(s.chord.notes, root, scale);
    if r.Some? {
      var suffix := "/" + PitchName(Simplify(s.bass, Natural));
      var chord := r.value.chord.(quality := r.value.chord.quality + suffix);
      var da := MakeDegreeAnalysis(chord, scale);
      r := Some(da);
    }
  }

  /** `key_analysis_result::str`: "?" for no interpretation, otherwise the
      numerals separated by " | ". */
  function KeyResultStr(rs: seq<DegreeAnalysis>): (r: string)
    ensures rs == [] ==> r == "?"
    ensures rs != [] ==> |rs[0].roman| <= |r| && r[..|rs[0].roman|] == rs[0].roman
  {
    if rs == [] then "?" else Join(Romans(rs), " | ")
  }

  function Romans(rs: seq<DegreeAnalysis>): (r: seq<string>)
    ensures |r| == |rs| && forall i | 0 <= i < |rs| :: r[i] == rs[i].roman
  {
    if rs == [] then [] else Romans(rs[..|rs| - 1]) + [rs[|rs| - 1].roman]
  }
}
