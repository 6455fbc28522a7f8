/** The chord-quality catalog that the analyser searches: each named quality
    reduced to its pitch-class set (bit `s` for every tone `s` semitones above
    the root), its number of tones and the semitone offsets of its first seven
    tones. The catalog order fixes the order of match results. */
module ChordCatalog {
  import opened Intervals
  import opened ChordPatterns
  import opened PitchClassSets

  /** The seven-slot table of semitone offsets (`std::array<int8_t, 7>`). */
  type SemiTable = s: seq<int> | |s| == 7 witness [-1, -1, -1, -1, -1, -1, -1]

  datatype ChordInfo = ChordInfo(name: string, pcs: set<int>, toneCount: nat, semis: SemiTable)

  /** The first seven semitone offsets of a pattern, -1 where it has fewer tones. */
  function SemitoneTable(ivs: seq<Interval>): (r: SemiTable)
  {
    seq(7, j requires 0 <= j < 7 => if j < |ivs| then Semitones(ivs[j]) else -1)
  }

  /** `make_chord_info` as a value. */
  function Info(name: string, p: ChordPattern): (r: ChordInfo)
    ensures r.name == name && r.toneCount == |p.intervals|
  {
    ChordInfo(name, PitchClassesOf(p.intervals), |p.intervals|, SemitoneTable(p.intervals))
  }

  /** The set has bit `s` exactly when some interval of the pattern is `s`
      semitones above the root; the table holds the offsets of the first
      seven tones and -1 beyond the last. */
  lemma {:induction false} InfoMeaning(name: string, p: ChordPattern)
    ensures IsPcs(Info(name, p).pcs)
    ensures forall s :: s in Info(name, p).pcs <==> exists i :: 0 <= i < |p.intervals| && Semitones(p.intervals[i]) == s
    ensures forall j | 0 <= j < 7 ::
              Info(name, p).semis[j] == (if j < |p.intervals| then Semitones(p.intervals[j]) else -1)
  {
    PitchClassesOfMeaning(p.intervals);
  }

  /** One more interval adds its semitone offset to the set. */
  lemma {:induction false} PitchClassesStep(ivs: seq<Interval>, i: nat)
    requires i < |ivs|
    ensures PitchClassesOf(ivs[..i + 1]) == PitchClassesOf(ivs[..i]) + {Semitones(ivs[i])}
  {
    assert ivs[..i + 1][..i] == ivs[..i];
  }

  /** C++'s `a % 12`: the remainder takes the sign of the dividend. */
  function CppRem12(a: int): (r: int)
    ensures -12 < r < 12
    ensures a >= 0 ==> r == a % 12
  {
    if a >= 0 then a % 12 else -((-a) % 12)
  }

  /** Adding 12 and reducing again, as the source does, turns the truncated
      remainder into the non-negative one. */
  lemma {:induction false} TruncatedOffset(a: int)
    ensures (CppRem12(a) + 12) % 12 == a % 12
  {
    if a >= 0 {
      ModAdd(a, 12);
      ModUnique(a % 12, 0, a % 12);
    } else {
      var q, m := (-a) / 12, (-a) % 12;
      assert -a == 12 * q + m;
      if m == 0 {
        ModUnique(a, -q, 0);
        ModUnique(12, 1, 0);
      } else {
        ModUnique(a, -q - 1, 12 - m);
        ModUnique(12 - m, 0, 12 - m);
      }
    }
  }

  /** `((fifths * 7) % 12 + 12) % 12` with C++'s `%`: the offset the source
      computes for one interval, which is its semitone size. */
  function SourceOffset(iv: Interval): (s: int)
    ensures s == Semitones(iv)
  {
    TruncatedOffset(iv.fifths * 7);
    (CppRem12(iv.fifths * 7) + 12) % 12
  }

  /** `make_chord_info`: sets one bit per tone and records the offsets of the
      first seven tones in a table that starts filled with -1. */
  method MakeChordInfo(name: string, p: ChordPattern) returns (r: ChordInfo)
    ensures r == Info(name, p)
  {
    var ivs := p.intervals;
    var pcs: set<int> := {};
    var semis := new int[7](_ => -1);
    for i := 0 to |ivs|
      invariant pcs == PitchClassesOf(ivs[..i])
      invariant forall j | 0 <= j < 7 :: semis[j] == (if j < i then Semitones(ivs[j]) else -1)
    {
      var s := SourceOffset(ivs[i]);
      PitchClassesStep(ivs, i);
      pcs := pcs + {s};
      if i < 7 {
        semis[i] := s;
      }
    }
    assert ivs[..|ivs|] == ivs;
    assert semis[..] == SemitoneTable(ivs);
    r := ChordInfo(name, pcs, |ivs|, semis[..]);
  }

  /** `chord_db`: every catalog quality as its name and pattern, in search
      order: extended chords first, triads and the power chord last. The
      entries are listed in five runs of nine. */
  const Entries: seq<(string, ChordPattern)> := Run1 + Run2 + Run3 + Run4 + Run5

  const Run1: seq<(string, ChordPattern)> := [
    ("13", Dom13),
    ("maj13", Maj13),
    ("m13", Min13),
    ("13#11", Dom13Sharp11AsWritten),
    ("11", Dom11),
    ("maj11", Maj11),
    ("m11", Min11),
    ("9#11", Dom9Sharp11),
    ("9b13", Dom9Flat13)
  ]

  const Run2: seq<(string, ChordPattern)> := [
    ("9", Dom9),
    ("maj9", Maj9),
    ("m9", Min9),
    ("m(maj9)", MinMaj9),
    ("aug9", Aug9),
    ("9sus4", Dom9Sus4),
    ("9b5", Dom9Flat5),
    ("6/9", Maj69),
    ("m6/9", Min69)
  ]

  const Run3: seq<(string, ChordPattern)> := [
    ("7b9", Dom7Flat9),
    ("7#9", Dom7Sharp9),
    ("7#5b9", Dom7Sharp5Flat9),
    ("7#5#9", Dom7Sharp5Sharp9),
    ("7b5b9", Dom7Flat5Flat9),
    ("add9", Add9),
    ("m(add9)", MinAdd9),
    ("add11", Add11),
    ("6", Maj6)
  ]

  const Run4: seq<(string, ChordPattern)> := [
    ("m6", Min6),
    ("7", Dom7),
    ("maj7", Maj7),
    ("m7", Min7),
    ("m(maj7)", MinMaj7),
    ("dim7", Dim7),
    ("m7b5", HalfDim7),
    ("aug7", Aug7),
    ("maj7#5", AugMaj7)
  ]

  const Run5: seq<(string, ChordPattern)> := [
    ("7sus4", Dom7Sus4),
    ("7b5", Dom7Flat5),
    ("", MajorTriad),
    ("m", MinorTriad),
    ("dim", DiminishedTriad),
    ("aug", AugmentedTriad),
    ("sus2", Sus2),
    ("sus4", Sus4),
    ("5", PowerChord)
  ]

  /** The catalog as the search sees it: one `make_chord_info` per entry. */
  const Catalog: seq<ChordInfo> := InfoAll(Entries)

  /** The entries with "13#11" built from the thirteenth whose eleventh,
      rather than its ninth, is raised. The analyser searches `Entries`. */
  const CorrectedEntries: seq<(string, ChordPattern)> := Entries[3 := ("13#11", Dom13Sharp11)]

  /** `make_chord_info` applied to every entry, in order. */
  function InfoAll(es: seq<(string, ChordPattern)>): (r: seq<ChordInfo>)
    ensures |r| == |es|
    ensures forall k | 0 <= k < |es| :: r[k] == Info(es[k].0, es[k].1)
  {
    if es == [] then [] else [Info(es[0].0, es[0].1)] + InfoAll(es[1..])
  }

  /** A catalog entry: well-formed sets and tables, the root among its tones,
      between two and seven tones (so the table covers every tone), and a
      name of at most seven characters. */
  predicate GoodEntry(info: ChordInfo) {
    IsPcs(info.pcs) && 0 in info.pcs && info.semis[0] == 0 &&
    2 <= info.toneCount <= 7 && |info.name| <= 7 &&
    forall j | 0 <= j < 7 :: (j < info.toneCount ==> 0 <= info.semis[j] < 12 && info.semis[j] in info.pcs)
  }

  /** What every catalog entry satisfies before it is turned into a `ChordInfo`. */
  predicate GoodSource(e: (string, ChordPattern)) {
    2 <= |e.1.intervals| <= 7 && e.1.intervals[0] == P1 && |e.0| <= 7
  }

  /** An entry built from a pattern that starts at the unison is good. */
  lemma {:induction false} InfoGood(e: (string, ChordPattern))
    requires GoodSource(e)
    ensures GoodEntry(Info(e.0, e.1))
  {
    var (name, p) := e;
    var r := Info(name, p);
    InfoMeaning(name, p);
    assert Semitones(p.intervals[0]) == 0;
    forall j | 0 <= j < 7 && j < r.toneCount
      ensures r.semis[j] in r.pcs
    {
      assert Semitones(p.intervals[j]) == r.semis[j];
    }
  }

  /** Every pattern of the catalog starts at the unison, so every entry holds
      bit 0 (the root); the catalog has 45 entries. */
  lemma CatalogIsGood()
    ensures |Catalog| == 45
    ensures forall k | 0 <= k < |Catalog| :: GoodEntry(Catalog[k])
  {
    EntriesAreGood();
    forall k | 0 <= k < |Catalog|
      ensures GoodEntry(Catalog[k])
    {
      InfoGood(Entries[k]);
    }
  }

  lemma EntriesAreGood()
    ensures |Entries| == 45 && forall k | 0 <= k < 45 :: GoodSource(Entries[k])
  {
    RunGood(Run1);
    RunGood(Run2);
    RunGood(Run3);
    RunGood(Run4);
    RunGood(Run5);
    var e := Entries;
    forall k | 0 <= k < 45
      ensures GoodSource(e[k])
    {
      if k < 9 {
        assert e[k] == Run1[k];
      } else if k < 18 {
        assert e[k] == Run2[k - 9];
      } else if k < 27 {
        assert e[k] == Run3[k - 18];
      } else if k < 36 {
        assert e[k] == Run4[k - 27];
      } else {
        assert e[k] == Run5[k - 36];
      }
    }
  }

  lemma {:induction false} RunGood(run: seq<(string, ChordPattern)>)
    requires run in {Run1, Run2, Run3, Run4, Run5}
    ensures |run| == 9 && forall k | 0 <= k < 9 :: GoodSource(run[k])
  {
    if run == Run1 {
      assert forall k | 0 <= k < 9 :: GoodSource(Run1[k]);
    } else if run == Run2 {
      assert forall k | 0 <= k < 9 :: GoodSource(Run2[k]);
    } else if run == Run3 {
      assert forall k | 0 <= k < 9 :: GoodSource(Run3[k]);
    } else if run == Run4 {
      assert forall k | 0 <= k < 9 :: GoodSource(Run4[k]);
    } else {
      assert forall k | 0 <= k < 9 :: GoodSource(Run5[k]);
    }
  }

  /** The "13#11" entry the analyser searches sounds the natural eleventh
      (5) and no ninth (2); the corrected entry sounds the ninth and not the
      natural eleventh. */
  lemma SharpElevenEntry()
    ensures Catalog[3].name == "13#11" && Catalog[3].toneCount == 7
    ensures Catalog[3].pcs == {0, 4, 5, 6, 7, 9, 10}
    ensures Info("13#11", Dom13Sharp11).pcs == {0, 2, 4, 6, 7, 9, 10}
  {
    SharpElevenSearched();
    AsWrittenSharpElevenPcs();
    CorrectedSharpElevenPcs();
  }

  lemma AsWrittenSharpElevenPcs()
    ensures PitchClassesOf(Dom13Sharp11AsWritten.intervals) == {0, 4, 5, 6, 7, 9, 10}
  {
    Dom13Sharp11AsWrittenLacksNinth();
    var ivs := Dom13Sharp11AsWritten.intervals;
    assert ivs == [P1, M3, P5, m7, A11, P11, M13];
    assert Semitones(A11) == 6 && Semitones(P11) == 5 && Semitones(M13) == 9;
    PcsOfSeven(ivs, {0, 4, 5, 6, 7, 9, 10});
  }

  lemma CorrectedSharpElevenPcs()
    ensures PitchClassesOf(Dom13Sharp11.intervals) == {0, 2, 4, 6, 7, 9, 10}
  {
    Dom13Sharp11HasNinthNotEleventh();
    var ivs := Dom13Sharp11.intervals;
    assert ivs == [P1, M3, P5, m7, M9, A11, M13];
    assert Semitones(M9) == 2 && Semitones(A11) == 6 && Semitones(M13) == 9;
    PcsOfSeven(ivs, {0, 2, 4, 6, 7, 9, 10});
  }

  /** The fourth entry searched is "13#11" on the pattern as written. */
  lemma SharpElevenSearched()
    ensures Entries[3] == ("13#11", Dom13Sharp11AsWritten)
    ensures Catalog[3] == Info("13#11", Dom13Sharp11AsWritten)
  {
    assert Entries == Run1 + (Run2 + Run3 + Run4 + Run5);
    assert Entries[3] == Run1[3];
  }

  /** The set of a seven-tone pattern is the set of its seven offsets. */
  lemma {:induction false} PcsOfSeven(ivs: seq<Interval>, pcs: set<int>)
    requires |ivs| == 7
    requires pcs == {Semitones(ivs[0]), Semitones(ivs[1]), Semitones(ivs[2]), Semitones(ivs[3]),
                     Semitones(ivs[4]), Semitones(ivs[5]), Semitones(ivs[6])}
    ensures PitchClassesOf(ivs) == pcs
  {
    PitchClassesOfMeaning(ivs);
    forall x | x in pcs
      ensures x in PitchClassesOf(ivs)
    {
      var i :| 0 <= i < 7 && Semitones(ivs[i]) == x;
    }
  }

  /** The corrected entries differ from the searched ones only in the pattern
      of "13#11", and are as good. */
  lemma CorrectedEntriesFacts()
    ensures |CorrectedEntries| == 45
    ensures forall k | 0 <= k < 45 && k != 3 :: CorrectedEntries[k] == Entries[k]
    ensures CorrectedEntries[3].0 == Entries[3].0 == "13#11"
    ensures CorrectedEntries[3].1 == Dom13Sharp11 != Entries[3].1
    ensures forall k | 0 <= k < 45 :: GoodSource(CorrectedEntries[k])
  {
    EntriesAreGood();
    SharpElevenSearched();
    Dom13Sharp11AsWrittenLacksNinth();
    Dom13Sharp11HasNinthNotEleventh();
  }

  /** `semitone_to_omission_name`: the label of an omitted chord tone by its
      distance from the root. */
  function OmissionName(semi: int): (r: string)
    ensures r == "no?" <==> !(1 <= semi <= 11)
    ensures |r| >= 3 && r[..2] == "no"
  {
    if semi == 1 || semi == 2 then "no9"
    else if semi == 3 || semi == 4 then "no3"
    else if semi == 5 then "no11"
    else if semi == 6 || semi == 7 then "no5"
    else if semi == 8 || semi == 9 then "no13"
    else if semi == 10 || semi == 11 then "no7"
    else "no?"
  }

  /** The search of `detect_inversion` from position `i` on. */
  function InversionFrom(bassSemi: int, info: ChordInfo, i: nat): (r: nat)
    requires 1 <= i
    ensures r == 0 || (i <= r < info.toneCount && r < 7 && info.semis[r] == bassSemi)
    ensures r != 0 ==> forall j | i <= j < r :: info.semis[j] != bassSemi
    ensures r == 0 ==> forall j | i <= j < info.toneCount && j < 7 :: info.semis[j] != bassSemi
    decreases 7 - i
  {
    if i >= info.toneCount || i >= 7 then 0
    else if info.semis[i] == bassSemi then i
    else InversionFrom(bassSemi, info, i + 1)
  }

  /** `detect_inversion`: the first tone position 1..min(tone_count, 7)-1 whose
      offset is the bass's, or 0 when there is none. */
  function DetectInversion(bassSemi: int, info: ChordInfo): (r: nat)
    ensures r < 7
    ensures r != 0 ==> r < info.toneCount && info.semis[r] == bassSemi &&
                       forall j | 1 <= j < r :: info.semis[j] != bassSemi
    ensures r == 0 <==> forall j | 1 <= j < info.toneCount && j < 7 :: info.semis[j] != bassSemi
  {
    InversionFrom(bassSemi, info, 1)
  }
}
