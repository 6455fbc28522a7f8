/** The harmonic-analysis engine: a pitch-class set measured from a candidate
    root is compared with every catalog entry, first for an exact match and
    then for a superset that omits at most two non-root tones; each match is
    turned into a named interpretation and the interpretations are ranked. */
module ChordMatcher {
  import opened Common
  import opened Notes
  import opened PitchClassSets
  import opened Sorting
  import opened ChordPatterns
  import opened ChordCatalog

  /** `match_result`: the matching catalog entry and the labels of the tones
      the input leaves out. */
  datatype Match = Match(info: ChordInfo, omissions: seq<string>)

  // ----- find_matches -----

  /** First pass: every entry whose set equals the input, nothing omitted. */
  function ExactMatches(db: seq<ChordInfo>, pcs: set<int>): seq<Match>
  {
    if db == [] then []
    else
      var info := db[|db| - 1];
      ExactMatches(db[..|db| - 1], pcs) + (if info.pcs == pcs then [Match(info, [])] else [])
  }

  /** The exact matches are precisely the entries whose set is the input,
      in catalog order, without omissions. */
  lemma {:induction false} ExactMatchesMeaning(db: seq<ChordInfo>, pcs: set<int>)
    ensures forall m | m in ExactMatches(db, pcs) :: m.info in db && m.info.pcs == pcs && m.omissions == []
    ensures forall info | info in db && info.pcs == pcs :: Match(info, []) in ExactMatches(db, pcs)
  {
    if db != [] {
      var prev := db[..|db| - 1];
      ExactMatchesMeaning(prev, pcs);
      assert db == prev + [db[|db| - 1]];
    }
  }

  /** The labels the omission loop collects from table slots `0 .. j-1`: one
      per slot that holds a tone (`j < tone_count`, offset not -1) whose bit
      is among the omitted ones. */
  function LabelsUpTo(info: ChordInfo, omitted: set<int>, j: nat): seq<string>
    requires j <= 7
  {
    if j == 0 then []
    else
      var s := info.semis[j - 1];
      LabelsUpTo(info, omitted, j - 1) +
        (if j - 1 < info.toneCount && s >= 0 && s in omitted then [OmissionName(s)] else [])
  }

  /** Slots at or past the tone count add no label, so the loop may stop there. */
  lemma {:induction false} LabelsStopAtToneCount(info: ChordInfo, omitted: set<int>, j: nat, k: nat)
    requires info.toneCount <= j <= k <= 7
    ensures LabelsUpTo(info, omitted, k) == LabelsUpTo(info, omitted, j)
    decreases k
  {
    if k > j {
      LabelsStopAtToneCount(info, omitted, j, k - 1);
    }
  }

  /** Every label names an omitted tone, and there is at most one per
      table slot. */
  lemma {:induction false} LabelsMeaning(info: ChordInfo, omitted: set<int>, j: nat)
    requires j <= 7
    ensures |LabelsUpTo(info, omitted, j)| <= j
    ensures forall l | l in LabelsUpTo(info, omitted, j) ::
              exists s :: s in omitted && 0 <= s && l == OmissionName(s)
  {
    if j > 0 {
      LabelsMeaning(info, omitted, j - 1);
    }
  }

  /** Second pass, one entry: the entry has more tones than the input, its
      set contains the input, and it omits at most two tones, none of them
      the root; the match is kept only when every omitted tone got a label. */
  function Candidate(info: ChordInfo, pcs: set<int>, count: nat): (r: Option<Match>)
    ensures r.Some? ==> r.value.info == info && count < info.toneCount && pcs <= info.pcs &&
                        |info.pcs - pcs| <= 2 && 0 !in info.pcs - pcs &&
                        |r.value.omissions| == |info.pcs - pcs|
    ensures r.None? <==> (info.toneCount <= count || !(pcs <= info.pcs) || |info.pcs - pcs| > 2 ||
                          0 in info.pcs - pcs || |LabelsUpTo(info, info.pcs - pcs, 7)| != |info.pcs - pcs|)
  {
    if info.toneCount <= count then None
    else if !(pcs <= info.pcs) then None
    else
      var omitted := info.pcs - pcs;
      if |omitted| > 2 then None
      else if 0 in omitted then None
      else
        var labels := LabelsUpTo(info, omitted, 7);
        if |labels| == |omitted| then Some(Match(info, labels)) else None
  }

  /** Second pass over the catalog, in catalog order. */
  function NearMatches(db: seq<ChordInfo>, pcs: set<int>, count: nat): seq<Match>
  {
    if db == [] then []
    else
      var c := Candidate(db[|db| - 1], pcs, count);
      NearMatches(db[..|db| - 1], pcs, count) + (if c.Some? then [c.value] else [])
  }

  /** Every near match comes from a catalog entry that passes the tests of
      the second pass; conversely every entry that passes them is matched. */
  lemma {:induction false} NearMatchesMeaning(db: seq<ChordInfo>, pcs: set<int>, count: nat)
    ensures forall m | m in NearMatches(db, pcs, count) ::
              m.info in db && Candidate(m.info, pcs, count) == Some(m)
    ensures forall info | info in db && Candidate(info, pcs, count).Some? ::
              Candidate(info, pcs, count).value in NearMatches(db, pcs, count)
  {
    if db != [] {
      var prev := db[..|db| - 1];
      NearMatchesMeaning(prev, pcs, count);
      assert db == prev + [db[|db| - 1]];
    }
  }

  /** `find_matches`: the exact matches when there are any; otherwise, when
      the root itself sounds (bit 0), the near matches; otherwise nothing. */
  function Matches(db: seq<ChordInfo>, pcs: set<int>, count: nat): seq<Match>
  {
    var exact := ExactMatches(db, pcs);
    if exact != [] then exact
    else if 0 !in pcs then []
    else NearMatches(db, pcs, count)
  }

  /** Every match comes from the catalog, contains the input and omits at
      most two tones, never the root; a match that omits nothing matches
      exactly, and when some entry matches exactly no match omits anything.
      Without the root among the input, only exact matches are possible. */
  lemma {:induction false} MatchesMeaning(db: seq<ChordInfo>, pcs: set<int>, count: nat)
    ensures forall m | m in Matches(db, pcs, count) ::
              m.info in db && pcs <= m.info.pcs && |m.omissions| == |m.info.pcs - pcs| <= 2 &&
              0 !in m.info.pcs - pcs
    ensures (exists info :: info in db && info.pcs == pcs) ==>
              forall m | m in Matches(db, pcs, count) :: m.info.pcs == pcs && m.omissions == []
    ensures 0 !in pcs ==> forall m | m in Matches(db, pcs, count) :: m.info.pcs == pcs
  {
    ExactMatchesMeaning(db, pcs);
    NearMatchesMeaning(db, pcs, count);
    var exact := ExactMatches(db, pcs);
    forall m | m in Matches(db, pcs, count)
      ensures pcs <= m.info.pcs && |m.omissions| == |m.info.pcs - pcs| <= 2 && 0 !in m.info.pcs - pcs
    {
      if m in exact {
        assert m.info.pcs - pcs == {};
      }
    }
    if exists info :: info in db && info.pcs == pcs {
      var info :| info in db && info.pcs == pcs;
      assert Match(info, []) in exact;
    }
  }

  /** The omission loop of `find_matches`. */
  method OmissionLabels(info: ChordInfo, omitted: set<int>) returns (r: seq<string>)
    ensures r == LabelsUpTo(info, omitted, 7)
  {
    r := [];
    var j := 0;
    while j < info.toneCount && j < 7
      invariant j <= 7 && j <= info.toneCount
      invariant r == LabelsUpTo(info, omitted, j)
    {
      var s := info.semis[j];
      if s >= 0 && s in omitted {
        r := r + [OmissionName(s)];
      }
      j := j + 1;
    }
    if j < 7 {
      LabelsStopAtToneCount(info, omitted, j, 7);
    }
  }

  /** `find_matches` over the catalog `db`. */
  method FindMatches(db: seq<ChordInfo>, pcs: set<int>, count: nat) returns (r: seq<Match>)
    ensures r == Matches(db, pcs, count)
  {
    r := [];
    for k := 0 to |db|
      invariant r == ExactMatches(db[..k], pcs)
    {
      assert db[..k + 1][..k] == db[..k];
      if pcs == db[k].pcs {
        r := r + [Match(db[k], [])];
      }
    }
    assert db[..|db|] == db;
    if r != [] {
      return;
    }
    if 0 !in pcs {
      return;
    }
    for k := 0 to |db|
      invariant r == NearMatches(db[..k], pcs, count)
    {
      assert db[..k + 1][..k] == db[..k];
      var info := db[k];
      if info.toneCount <= count {
        continue;
      }
      if !(pcs <= info.pcs) {
        continue;
      }
      var omitted := info.pcs - pcs;
      var omittedCount := |omitted|;
      if omittedCount > 2 {
        continue;
      }
      if 0 in omitted {
        continue;
      }
      var omissions := OmissionLabels(info, omitted);
      if |omissions| == omittedCount {
        r := r + [Match(info, omissions)];
      }
    }
  }

  // ----- the input set -----

  /** The distinct pitch classes that sound. */
  function Pitches(notes: seq<Note>): (r: set<int>)
    ensures IsPcs(r)
  {
    set tone | tone in notes :: Pitch(tone)
  }

  /** The `build_pcs` lambda: bit `(pitch - root + 12) % 12` for every note. */
  function RelPcs(notes: seq<Note>, root: int): (r: set<int>)
    requires 0 <= root < 12
  {
    if notes == [] then {}
    else RelPcs(notes[..|notes| - 1], root) + {RelPc(Pitch(notes[|notes| - 1]), root)}
  }

  /** The input set is the sounding pitch classes measured from the root. */
  lemma {:induction false} RelPcsIsRotation(notes: seq<Note>, root: int)
    requires 0 <= root < 12
    ensures RelPcs(notes, root) == Rotate(Pitches(notes), root)
  {
    if notes != [] {
      var prev := notes[..|notes| - 1];
      RelPcsIsRotation(prev, root);
      assert notes == prev + [notes[|notes| - 1]];
      assert Pitches(notes) == Pitches(prev) + {Pitch(notes[|notes| - 1])};
    }
  }

  /** Whatever the root, the input set has one bit per distinct sounding
      pitch class, and bit 0 exactly when the root's pitch class sounds. */
  lemma {:induction false} InputSetFacts(notes: seq<Note>, root: int)
    requires 0 <= root < 12
    ensures IsPcs(RelPcs(notes, root))
    ensures |RelPcs(notes, root)| == |Pitches(notes)|
    ensures 0 in RelPcs(notes, root) <==> root in Pitches(notes)
  {
    RelPcsIsRotation(notes, root);
    RotateFacts(Pitches(notes), root);
  }

  /** The `build_pcs` loop. */
  method BuildPcs(notes: seq<Note>, root: int) returns (s: set<int>)
    requires 0 <= root < 12
    ensures s == RelPcs(notes, root)
  {
    s := {};
    for i := 0 to |notes|
      invariant s == RelPcs(notes[..i], root)
    {
      assert notes[..i + 1][..i] == notes[..i];
      s := s + {RelPc(Pitch(notes[i]), root)};
    }
    assert notes[..|notes|] == notes;
  }

  // ----- interpretations -----

  /** `chord_analysis`: a root, a quality name, the bass when it is not the
      root, the inversion number and the omission labels. */
  datatype Analysis = Analysis(root: Note, quality: string, bass: Option<Note>, inversion: nat,
                               omissions: seq<string>)

  /** `build_analysis`: the root is respelled; when the lowest note's pitch
      class differs from the root's, it becomes the bass and the inversion is
      the position of its offset among the quality's tones. */
  function BuildAnalysis(rootNote: Note, m: Match, lowest: Note): (r: Analysis)
    ensures r.root == Simplify(rootNote, Natural) && Pitch(r.root) == Pitch(rootNote)
    ensures r.quality == m.info.name && r.omissions == m.omissions
    ensures r.bass.None? <==> Pitch(rootNote) == Pitch(lowest)
    ensures r.bass.Some? ==> r.bass.value == lowest
    ensures r.inversion < 7
    ensures r.inversion != 0 ==>
              r.bass.Some? && m.info.semis[r.inversion] == RelPc(Pitch(lowest), Pitch(rootNote))
  {
    var rootPitch := Pitch(rootNote);
    if rootPitch == Pitch(lowest) then
      Analysis(Simplify(rootNote, Natural), m.info.name, None, 0, m.omissions)
    else
      var bassSemi := RelPc(Pitch(lowest), rootPitch);
      Analysis(Simplify(rootNote, Natural), m.info.name, Some(lowest),
               DetectInversion(bassSemi, m.info), m.omissions)
  }

  /** One interpretation per match, in match order. */
  function BuildAll(rootNote: Note, ms: seq<Match>, lowest: Note): (r: seq<Analysis>)
    ensures |r| == |ms|
    ensures forall i | 0 <= i < |ms| :: r[i] == BuildAnalysis(rootNote, ms[i], lowest)
  {
    seq(|ms|, i requires 0 <= i < |ms| => BuildAnalysis(rootNote, ms[i], lowest))
  }

  // ----- ranking -----

  /** The comparison of the final `stable_sort`: fewer omissions first, then
      the lower inversion, then the shorter quality name. */
  predicate RankedBefore(a: Analysis, b: Analysis) {
    if |a.omissions| != |b.omissions| then |a.omissions| < |b.omissions|
    else if a.inversion != b.inversion then a.inversion < b.inversion
    else |a.quality| < |b.quality|
  }

  /** The three keys packed into one number. */
  function Rank(a: Analysis): int {
    (|a.omissions| * 8 + a.inversion) * 8 + |a.quality|
  }

  /** Interpretations built from catalog entries: inversion and name length
      below eight. */
  predicate Bounded(a: Analysis) {
    a.inversion < 8 && |a.quality| < 8
  }

  /** For bounded interpretations the packed rank orders exactly as the
      source's comparison does, and equal ranks are exactly the pairs that
      the comparison leaves in place. */
  lemma {:induction false} RankIsComparison(a: Analysis, b: Analysis)
    requires Bounded(a) && Bounded(b)
    ensures RankedBefore(a, b) <==> Rank(a) < Rank(b)
    ensures Rank(a) == Rank(b) <==> !RankedBefore(a, b) && !RankedBefore(b, a)
  {
  }

  // ----- analyze_all -----

  /** The interpretations gathered before ranking from the first `t` notes in
      ascending MIDI order: each note whose pitch class was not tried before
      is tried as the root, and its matches are built in match order. */
  function Gathered(notes: seq<Note>, sorted: seq<Note>, t: nat, lowest: Note, count: nat): seq<Analysis>
    requires t <= |sorted|
  {
    if t == 0 then []
    else
      var n := sorted[t - 1];
      Gathered(notes, sorted, t - 1, lowest, count) +
        (if Pitch(n) in Pitches(sorted[..t - 1]) then []
         else BuildAll(n, Matches(Catalog, RelPcs(notes, Pitch(n)), count), lowest))
  }

  /** `analyze_all`: the notes ordered by MIDI number, the lowest one taken
      as the possible bass, the input size counted from it, every distinct
      pitch class tried as the root, and the result ranked. */
  function AnalyzeAllSpec(notes: seq<Note>): seq<Analysis>
    requires |notes| >= 1
  {
    var sorted := SortBy(notes, Midi);
    var lowest := sorted[0];
    var count := |RelPcs(notes, Pitch(lowest))|;
    SortBy(Gathered(notes, sorted, |sorted|, lowest, count), Rank)
  }

  /** The first note in MIDI order is a lowest note. */
  lemma {:induction false} SortedFirstIsLowest(notes: seq<Note>)
    requires |notes| >= 1
    ensures SortBy(notes, Midi)[0] in notes
    ensures forall n | n in notes :: Midi(SortBy(notes, Midi)[0]) <= Midi(n)
  {
    var sorted := SortBy(notes, Midi);
    SortBySorted(notes, Midi);
    SortByMembers(notes, Midi);
    forall n | n in notes
      ensures Midi(sorted[0]) <= Midi(n)
    {
      assert n in multiset(notes);
      var i :| 0 <= i < |sorted| && sorted[i] == n;
      if i > 0 {
        assert Midi(sorted[0]) <= Midi(sorted[i]);
      }
    }
  }

  /** What every gathered interpretation satisfies. */
  predicate WellBuilt(a: Analysis, sorted: seq<Note>, lowest: Note) {
    |a.omissions| <= 2 && a.inversion < 7 && |a.quality| <= 7 &&
    (exists n :: n in sorted && a.root == Simplify(n, Natural)) &&
    (a.bass.None? <==> Pitch(a.root) == Pitch(lowest)) &&
    (a.bass.Some? ==> a.bass.value == lowest)
  }

  /** Every match against the catalog yields a well-built interpretation. */
  lemma {:induction false} BuiltFromCatalog(n: Note, m: Match, sorted: seq<Note>, lowest: Note, pcs: set<int>, count: nat)
    requires m in Matches(Catalog, pcs, count) && n in sorted
    ensures WellBuilt(BuildAnalysis(n, m, lowest), sorted, lowest)
  {
    MatchesMeaning(Catalog, pcs, count);
    CatalogIsGood();
    var k :| 0 <= k < |Catalog| && Catalog[k] == m.info;
    assert GoodEntry(Catalog[k]);
  }

  /** Every gathered interpretation is well built, and interpretations whose
      roots share a pitch class share the root note: each pitch class is
      tried once, from its first note in MIDI order. */
  lemma {:induction false} GatheredFacts(notes: seq<Note>, sorted: seq<Note>, t: nat, lowest: Note, count: nat)
    requires t <= |sorted|
    ensures forall a | a in Gathered(notes, sorted, t, lowest, count) :: WellBuilt(a, sorted, lowest)
    ensures forall a | a in Gathered(notes, sorted, t, lowest, count) :: Pitch(a.root) in Pitches(sorted[..t])
    ensures forall a, b | a in Gathered(notes, sorted, t, lowest, count) && b in Gathered(notes, sorted, t, lowest, count) ::
              Pitch(a.root) == Pitch(b.root) ==> a.root == b.root
  {
    if t > 0 {
      GatheredFacts(notes, sorted, t - 1, lowest, count);
      var prev := Gathered(notes, sorted, t - 1, lowest, count);
      var n := sorted[t - 1];
      assert sorted[..t] == sorted[..t - 1] + [n];
      assert Pitches(sorted[..t]) == Pitches(sorted[..t - 1]) + {Pitch(n)};
      if Pitch(n) !in Pitches(sorted[..t - 1]) {
        var block := BuildAll(n, Matches(Catalog, RelPcs(notes, Pitch(n)), count), lowest);
        assert Gathered(notes, sorted, t, lowest, count) == prev + block;
        BlockFacts(notes, sorted, t, lowest, count);
      }
    }
  }

  /** The interpretations built for one root note are well built and carry
      that note, spelled naturally, as their root. */
  lemma {:induction false} BlockFacts(notes: seq<Note>, sorted: seq<Note>, t: nat, lowest: Note, count: nat)
    requires 0 < t <= |sorted|
    ensures var n := sorted[t - 1];
            forall a | a in BuildAll(n, Matches(Catalog, RelPcs(notes, Pitch(n)), count), lowest) ::
              WellBuilt(a, sorted, lowest) && a.root == Simplify(n, Natural)
  {
    var n := sorted[t - 1];
    var ms := Matches(Catalog, RelPcs(notes, Pitch(n)), count);
    var block := BuildAll(n, ms, lowest);
    forall a | a in block
      ensures WellBuilt(a, sorted, lowest) && a.root == Simplify(n, Natural)
    {
      var i :| 0 <= i < |block| && block[i] == a;
      BuiltFromCatalog(n, ms[i], sorted, lowest, RelPcs(notes, Pitch(n)), count);
    }
  }

  /** The ranked result: ordered by the source's comparison, a permutation of
      the gathered interpretations that keeps the gathering order among equal
      ranks, and made of well-built interpretations whose roots are tried
      once per pitch class and whose bass, when present, is a lowest note. */
  lemma {:induction false} AnalyzeAllFacts(notes: seq<Note>)
    requires |notes| >= 1
    ensures var sorted := SortBy(notes, Midi);
            var lowest := sorted[0];
            var g := Gathered(notes, sorted, |sorted|, lowest, |RelPcs(notes, Pitch(lowest))|);
            var r := AnalyzeAllSpec(notes);
            multiset(r) == multiset(g) &&
            (forall v :: Filter(r, Rank, v) == Filter(g, Rank, v)) &&
            (forall i, j | 0 <= i < j < |r| :: !RankedBefore(r[j], r[i])) &&
            (forall a | a in r :: WellBuilt(a, sorted, lowest)) &&
            (forall a, b | a in r && b in r :: Pitch(a.root) == Pitch(b.root) ==> a.root == b.root)
    ensures forall a | a in AnalyzeAllSpec(notes) ::
              (exists n :: n in notes && a.root == Simplify(n, Natural)) &&
              (a.bass.Some? ==> forall n | n in notes :: Midi(a.bass.value) <= Midi(n))
  {
    AnalyzeAllOrdered(notes);
    AnalyzeAllRoots(notes);
  }

  /** The sorting half of `AnalyzeAllFacts`. */
  lemma {:induction false} AnalyzeAllOrdered(notes: seq<Note>)
    requires |notes| >= 1
    ensures var sorted := SortBy(notes, Midi);
            var lowest := sorted[0];
            var g := Gathered(notes, sorted, |sorted|, lowest, |RelPcs(notes, Pitch(lowest))|);
            var r := AnalyzeAllSpec(notes);
            multiset(r) == multiset(g) &&
            (forall v :: Filter(r, Rank, v) == Filter(g, Rank, v)) &&
            (forall i, j | 0 <= i < j < |r| :: !RankedBefore(r[j], r[i])) &&
            (forall a | a in r :: WellBuilt(a, sorted, lowest)) &&
            (forall a, b | a in r && b in r :: Pitch(a.root) == Pitch(b.root) ==> a.root == b.root)
  {
    var sorted := SortBy(notes, Midi);
    var lowest := sorted[0];
    var g := Gathered(notes, sorted, |sorted|, lowest, |RelPcs(notes, Pitch(lowest))|);
    var r := AnalyzeAllSpec(notes);
    SortBySorted(g, Rank);
    SortByIsStable(g, Rank);
    SortByMembers(g, Rank);
    GatheredFacts(notes, sorted, |sorted|, lowest, |RelPcs(notes, Pitch(lowest))|);
    forall i, j | 0 <= i < j < |r|
      ensures !RankedBefore(r[j], r[i])
    {
      assert r[i] in g && r[j] in g;
      RankIsComparison(r[i], r[j]);
    }
  }

  /** The roots-and-bass half of `AnalyzeAllFacts`. */
  lemma {:induction false} AnalyzeAllRoots(notes: seq<Note>)
    requires |notes| >= 1
    ensures forall a | a in AnalyzeAllSpec(notes) ::
              (exists n :: n in notes && a.root == Simplify(n, Natural)) &&
              (a.bass.Some? ==> forall n | n in notes :: Midi(a.bass.value) <= Midi(n))
  {
    var sorted := SortBy(notes, Midi);
    var lowest := sorted[0];
    var g := Gathered(notes, sorted, |sorted|, lowest, |RelPcs(notes, Pitch(lowest))|);
    SortByMembers(g, Rank);
    GatheredFacts(notes, sorted, |sorted|, lowest, |RelPcs(notes, Pitch(lowest))|);
    SortedFirstIsLowest(notes);
    SortByMembers(notes, Midi);
  }

  /** One step of the gathering: the tried set grows by the note's pitch
      class, and its matches are appended only when that class is new. */
  lemma {:induction false} GatheredStep(notes: seq<Note>, sorted: seq<Note>, t: nat, lowest: Note, count: nat)
    requires t < |sorted|
    ensures Pitches(sorted[..t + 1]) == Pitches(sorted[..t]) + {Pitch(sorted[t])}
    ensures Gathered(notes, sorted, t + 1, lowest, count) ==
              Gathered(notes, sorted, t, lowest, count) +
              (if Pitch(sorted[t]) in Pitches(sorted[..t]) then []
               else BuildAll(sorted[t], Matches(Catalog, RelPcs(notes, Pitch(sorted[t])), count), lowest))
  {
    assert sorted[..t + 1] == sorted[..t] + [sorted[t]];
    assert sorted[..t + 1][..t] == sorted[..t];
  }

  /** The inner loop of `analyze_all`: one interpretation per match,
      appended in match order. */
  method AppendInterpretations(results: seq<Analysis>, rootNote: Note, matches: seq<Match>, lowest: Note)
    returns (out: seq<Analysis>)
    ensures out == results + BuildAll(rootNote, matches, lowest)
  {
    out := results;
    for i := 0 to |matches|
      invariant out == results + BuildAll(rootNote, matches[..i], lowest)
    {
      assert BuildAll(rootNote, matches[..i + 1], lowest) ==
             BuildAll(rootNote, matches[..i], lowest) + [BuildAnalysis(rootNote, matches[i], lowest)];
      out := out + [BuildAnalysis(rootNote, matches[i], lowest)];
    }
    assert matches[..|matches|] == matches;
  }

  /** `analyze_all`: the note order sorted by MIDI number, each pitch class
      tried once, then the stable ranking. */
  method AnalyzeAll(notes: seq<Note>) returns (r: seq<Analysis>)
    requires |notes| >= 1
    ensures r == AnalyzeAllSpec(notes)
  {
    var sorted := SortBy(notes, Midi);
    var lowest := sorted[0];
    var tried: set<int> := {};
    var first := BuildPcs(notes, Pitch(lowest));
    var count := |first|;
    var results: seq<Analysis> := [];
    for t := 0 to |sorted|
      invariant tried == Pitches(sorted[..t])
      invariant results == Gathered(notes, sorted, t, lowest, count)
    {
      GatheredStep(notes, sorted, t, lowest, count);
      var n := sorted[t];
      var pc := Pitch(n);
      if pc !in tried {
        tried := tried + {pc};
        var pcsVal := BuildPcs(notes, pc);
        var matches := FindMatches(Catalog, pcsVal, count);
        results := AppendInterpretations(results, n, matches, lowest);
      }
    }
    r := SortBy(results, Rank);
  }

  // ----- analyze_with_root -----

  /** `analyze_with_root`: the input measured from the given root, the first
      lowest-MIDI note as the possible bass, and the first match, if any. */
  function AnalyzeWithRootSpec(notes: seq<Note>, root: Note): Option<Analysis>
    requires |notes| >= 1
  {
    var pcs := RelPcs(notes, Pitch(root));
    var ms := Matches(Catalog, pcs, |pcs|);
    if ms == [] then None else Some(BuildAnalysis(root, ms[0], notes[LowestIndex(notes)]))
  }

  /** `analyze_with_root`, with the set built by the same loop as `build_pcs`
      and the lowest note found as `min_element` does (the first minimum). */
  method AnalyzeWithRoot(notes: seq<Note>, root: Note) returns (r: Option<Analysis>)
    requires |notes| >= 1
    ensures r == AnalyzeWithRootSpec(notes, root)
  {
    var pcs := BuildPcs(notes, Pitch(root));
    var lowest := notes[LowestIndex(notes)];
    var inputCount := |pcs|;
    var ms := FindMatches(Catalog, pcs, inputCount);
    if |ms| > 0 {
      r := Some(BuildAnalysis(root, ms[0], lowest));
    } else {
      r := None;
    }
  }

  /** The first exact match is the first catalog entry with the input's set. */
  lemma {:induction false} FirstExactMatch(db: seq<ChordInfo>, pcs: set<int>, k: nat)
    requires k < |db| && db[k].pcs == pcs
    requires forall j | 0 <= j < k :: db[j].pcs != pcs
    ensures ExactMatches(db, pcs) != [] && ExactMatches(db, pcs)[0] == Match(db[k], [])
    decreases |db|
  {
    var prev := db[..|db| - 1];
    if k < |db| - 1 {
      FirstExactMatch(prev, pcs, k);
    } else {
      ExactMatchesMeaning(prev, pcs);
    }
  }

  /** With the root not sounding there is no interpretation: every catalog
      entry holds bit 0, which the input then lacks. */
  lemma {:induction false} RootNotSoundingGivesNone(notes: seq<Note>, root: Note)
    requires |notes| >= 1
    requires Pitch(root) !in Pitches(notes)
    ensures AnalyzeWithRootSpec(notes, root) == None
  {
    var pcs := RelPcs(notes, Pitch(root));
    InputSetFacts(notes, Pitch(root));
    CatalogIsGood();
    ExactMatchesMeaning(Catalog, pcs);
  }

  /** When some catalog entry matches exactly, the interpretation names the
      first such entry in catalog order and omits nothing. */
  lemma {:induction false} FirstExactInterpretation(notes: seq<Note>, root: Note, k: nat)
    requires |notes| >= 1
    requires k < |Catalog| && Catalog[k].pcs == RelPcs(notes, Pitch(root))
    requires forall j | 0 <= j < k :: Catalog[j].pcs != RelPcs(notes, Pitch(root))
    ensures AnalyzeWithRootSpec(notes, root) ==
              Some(BuildAnalysis(root, Match(Catalog[k], []), notes[LowestIndex(notes)]))
  {
    FirstExactMatch(Catalog, RelPcs(notes, Pitch(root)), k);
  }

  // ----- slash chords -----

  /** Every quality extended by the same suffix, everything else kept. */
  function WithSuffix(items: seq<Analysis>, suffix: string): (r: seq<Analysis>)
    ensures |r| == |items|
    ensures forall i | 0 <= i < |items| :: r[i] == items[i].(quality := items[i].quality + suffix)
  {
    seq(|items|, i requires 0 <= i < |items| => items[i].(quality := items[i].quality + suffix))
  }

  /** The text appended in the fallback: a slash and the bass's name. */
  function BassSuffix(bass: Note): (r: string)
    ensures |r| >= 2 && r[0] == '/' && r[1..] == PitchName(Simplify(bass, Natural))
  {
    "/" + PitchName(Simplify(bass, Natural))
  }

  /** `slash_chord_instance::analyze()`: the bass and the chord analysed
      together; when that finds nothing, the chord alone with the bass named
      after every quality. */
  function SlashAnalyzeSpec(s: SlashChord): seq<Analysis>
    requires |s.chord.notes| >= 1
  {
    var direct := AnalyzeAllSpec(AllNotes(s));
    if direct != [] then direct
    else WithSuffix(AnalyzeAllSpec(s.chord.notes), BassSuffix(s.bass))
  }

  /** The fallback loop: each quality extended in place. */
  method AppendBass(items: seq<Analysis>, bass: Note) returns (r: seq<Analysis>)
    ensures r == WithSuffix(items, BassSuffix(bass))
  {
    r := items;
    var suffix := "/" + PitchName(Simplify(bass, Natural));
    for i := 0 to |r|
      invariant |r| == |items|
      invariant forall j | 0 <= j < i :: r[j] == items[j].(quality := items[j].quality + suffix)
      invariant forall j | i <= j < |r| :: r[j] == items[j]
    {
      r := r[i := r[i].(quality := r[i].quality + suffix)];
    }
  }

  method SlashAnalyze(s: SlashChord) returns (r: seq<Analysis>)
    requires |s.chord.notes| >= 1
    ensures r == SlashAnalyzeSpec(s)
  {
    r := AnalyzeAll(AllNotes(s));
    if r != [] {
      return;
    }
    var chordResult := AnalyzeAll(s.chord.notes);
    r := AppendBass(chordResult, s.bass);
  }

  /** The fallback changes only the quality names, each of which gains the
      bass suffix; the result is empty only when both analyses are. */
  lemma {:induction false} SlashFallbackFacts(s: SlashChord)
    requires |s.chord.notes| >= 1
    ensures SlashAnalyzeSpec(s) == [] <==> AnalyzeAllSpec(AllNotes(s)) == [] && AnalyzeAllSpec(s.chord.notes) == []
    ensures AnalyzeAllSpec(AllNotes(s)) == [] ==>
              forall a | a in SlashAnalyzeSpec(s) ::
                |a.quality| >= |BassSuffix(s.bass)| &&
                a.quality[|a.quality| - |BassSuffix(s.bass)|..] == BassSuffix(s.bass)
  {
    WithSuffixEndsWith(AnalyzeAllSpec(s.chord.notes), BassSuffix(s.bass));
  }

  /** Every quality of the extended list ends with the suffix. */
  lemma {:induction false} WithSuffixEndsWith(items: seq<Analysis>, suffix: string)
    ensures forall a | a in WithSuffix(items, suffix) ::
              |a.quality| >= |suffix| && a.quality[|a.quality| - |suffix|..] == suffix
  {
    var r := WithSuffix(items, suffix);
    forall a | a in r
      ensures |a.quality| >= |suffix| && a.quality[|a.quality| - |suffix|..] == suffix
    {
      var i :| 0 <= i < |r| && r[i] == a;
      assert a.quality == items[i].quality + suffix;
    }
  }

  /** `slash_chord_instance::analyze(root)`: the same fallback for a fixed root. */
  function SlashAnalyzeWithRootSpec(s: SlashChord, root: Note): Option<Analysis>
    requires |s.chord.notes| >= 1
  {
    var direct := AnalyzeWithRootSpec(AllNotes(s), root);
    if direct.Some? then direct
    else
      var inner := AnalyzeWithRootSpec(s.chord.notes, root);
      if inner.Some? then Some(inner.value.(quality := inner.value.quality + BassSuffix(s.bass)))
      else None
  }

  method SlashAnalyzeWithRoot(s: SlashChord, root: Note) returns (r: Option<Analysis>)
    requires |s.chord.notes| >= 1
    ensures r == SlashAnalyzeWithRootSpec(s, root)
  {
    r := AnalyzeWithRoot(AllNotes(s), root);
    if r.Some? {
      return;
    }
    r := AnalyzeWithRoot(s.chord.notes, root);
    if r.Some? {
      r := Some(r.value.(quality := r.value.quality + BassSuffix(s.bass)));
    }
  }

  /** A root that sounds in neither the slash chord nor its bass gives no
      interpretation, with or without the fallback. */
  lemma {:induction false} SlashWithRootNotSounding(s: SlashChord, root: Note)
    requires |s.chord.notes| >= 1
    requires Pitch(root) !in Pitches(AllNotes(s))
    ensures SlashAnalyzeWithRootSpec(s, root) == None
  {
    RootNotSoundingGivesNone(AllNotes(s), root);
    assert Pitch(root) !in Pitches(s.chord.notes) by {
      forall x | x in s.chord.notes
        ensures x in AllNotes(s)
      {
        assert AllNotes(s)[1..] == s.chord.notes;
      }
    }
    RootNotSoundingGivesNone(s.chord.notes, root);
  }

  // ----- text -----

  /** The omitted tones as written after a chord name: nothing when there
      are none, otherwise their labels between parentheses, comma-separated. */
  function OmissionsText(oms: seq<string>): (r: string)
    ensures oms == [] <==> r == ""
    ensures oms != [] ==> |r| >= 2 && r[0] == '(' && r[|r| - 1] == ')' && r[1..|r| - 1] == Join(oms, ",")
  {
    if oms == [] then "" else "(" + Join(oms, ",") + ")"
  }

  /** `chord_analysis::str`: root name, quality, the omissions in
      parentheses, and "/bass" when there is a bass. */
  function AnalysisStr(a: Analysis): (r: string)
    ensures var name := PitchName(Simplify(a.root, Natural));
            |name| <= |r| && r[..|name|] == name
    ensures a.omissions == [] && a.bass.None? ==> r == PitchName(Simplify(a.root, Natural)) + a.quality
    ensures a.bass.Some? ==>
              var b := BassSuffix(a.bass.value);
              |b| <= |r| && r[|r| - |b|..] == b
  {
    var name := PitchName(Simplify(a.root, Natural));
    var om := OmissionsText(a.omissions);
    var bs := if a.bass.Some? then BassSuffix(a.bass.value) else "";
    assert (name + a.quality + om + bs)[..|name|] == name;
    name + a.quality + om + bs
  }

  /** `analysis_result::str`: "?" for no interpretation, otherwise every
      interpretation's text separated by " | ". */
  function ResultStr(rs: seq<Analysis>): (r: string)
    ensures r == "?" <==> rs == []
    ensures rs != [] ==> |AnalysisStr(rs[0])| <= |r| && r[..|AnalysisStr(rs[0])|] == AnalysisStr(rs[0])
  {
    if rs == [] then "?"
    else
      var parts := seq(|rs|, i requires 0 <= i < |rs| => AnalysisStr(rs[i]));
      var r := Join(parts, " | ");
      assert r[0] == parts[0][0] == PitchName(Simplify(rs[0].root, Natural))[0];
      assert r[0] != '?' by { assert PitchName(Simplify(rs[0].root, Natural))[0] in Letters; }
      r
  }
}
